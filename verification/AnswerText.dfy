/**
 Streamed answer text is conserved: what the assistant streamed for a turn is what was archived
 for it, in order, followed by what is still running; and archived text stays on the timeline.
 */
module AnswerText {
  import opened Wrappers
  import opened Text
  import opened AgentEvents
  import opened Projector
  import opened ProcessIndex

  // ---------------------------------------------------------------- the text of a turn

  predicate Streams(e: AgentEvent, t: string) {
    e.kind == KindAssistant && !IsSideText(e) && StreamsFinal(e) && e.turnID == t
  }

  /** Everything streamed to the answer of turn `t`, in order. */
  function Streamed(events: seq<AgentEvent>, t: string): string {
    if events == [] then ""
    else
      var before, e := events[..|events| - 1], events[|events| - 1];
      Streamed(before, t) + if Streams(e, t) then FinalText(e) else ""
  }

  predicate ArchivesNow(finals: Finals, e: AgentEvent) {
    (e.kind == KindTool && Archives(finals, e, false)) || (e.kind == KindSystem && ResetsFinal(e) && Archives(finals, e, true))
  }

  function ArchiveKind(e: AgentEvent): string {
    if e.kind == KindTool then BEFORE_TOOL else BEFORE_ITERATION
  }

  /** The answer texts archived for turn `t`, before trimming, in order. */
  function Pieces(sessionID: string, events: seq<AgentEvent>, t: string): seq<string>
    requires Replay(sessionID, events).Success?
  {
    if events == [] then []
    else
      var before, e := events[..|events| - 1], events[|events| - 1];
      Pieces(sessionID, before, t) + NewPiece(Replay(sessionID, before).value.finals, e, t)
  }

  function NewPiece(finals: Finals, e: AgentEvent, t: string): seq<string> {
    if e.turnID == t && ArchivesNow(finals, e) then [finals[t].text] else []
  }

  function Concat(pieces: seq<string>): string {
    if pieces == [] then "" else Concat(pieces[..|pieces| - 1]) + pieces[|pieces| - 1]
  }

  /** Within turn `t` text is only ever appended, and the turn is not failed or cancelled. */
  predicate AppendsOnly(e: AgentEvent, t: string) {
    && (Streams(e, t) ==> !ReplacesFinal(e))
    && (e.kind == KindTurn && TerminalPhase(e.phase) && e.turnID == t ==>
        e.status != StatusFailed && e.status != StatusCanceled)
  }

  /** What an event does to the running answers, whatever it does elsewhere. */
  function FinalsStep(finals: Finals, e: AgentEvent): Finals {
    match e.kind
    case KindTurn => if TerminalPhase(e.phase) then CompleteFinal(finals, e) else finals
    case KindAssistant => if !IsSideText(e) && StreamsFinal(e) then StreamFinal(finals, e) else finals
    case _ => if ArchivesNow(finals, e) then finals - {e.turnID} else finals
  }

  lemma TurnFinals(p: Projection, e: AgentEvent)
    ensures ApplyTurn(p, e).finals == if TerminalPhase(e.phase) then CompleteFinal(p.finals, e) else p.finals
  {
    assert ApplyTurn(p, e).finals == TurnLiveness(p, e).finals;
    if TerminalPhase(e.phase) {
      var q := p.(live := p.live.(turns := p.live.turns - {e.turnID}, agents := {}, streams := {}),
                  finals := CompleteFinal(p.finals, e),
                  lastTerminalFailed := e.phase == PhaseFailed);
      CompletionFinals(q, e);
    }
  }

  lemma CompletionFinals(p: Projection, e: AgentEvent)
    ensures CompleteActivityRows(ClearApprovals(p, e.status, e.createdAt), e).finals == p.finals
  {
  }

  lemma WriteRowFinals(p: Projection, row: TimelineEntry)
    ensures WriteRow(p, row).finals == p.finals
  {
  }

  lemma ArchiveFinals(p: Projection, e: AgentEvent, idKind: string, includeCompleted: bool)
    ensures ArchiveFinal(p, e, idKind, includeCompleted).finals ==
      if Archives(p.finals, e, includeCompleted) then p.finals - {e.turnID} else p.finals
  {
    if Archives(p.finals, e, includeCompleted) {
      var final := p.finals[e.turnID];
      var row := ArchiveRow(final, e, idKind);
      WriteRowFinals(p, row);
      var q := if TrimSpace(final.text) == "" then p else WriteRow(p, row);
      assert q.finals == p.finals;
      assert ArchiveFinal(p, e, idKind, includeCompleted) == q.(finals := q.finals - {e.turnID});
    }
  }

  lemma ToolFinals(p: Projection, e: AgentEvent)
    requires e.kind == KindTool
    ensures ApplyTool(p, e).finals == FinalsStep(p.finals, e)
  {
    var q := ArchiveFinal(p, e, BEFORE_TOOL, false);
    ArchiveFinals(p, e, BEFORE_TOOL, false);
    WriteRowFinals(q, ToolRow(e));
    assert ApplyTool(p, e).finals == WriteRow(q, ToolRow(e)).finals;
  }

  lemma SystemFinals(p: Projection, e: AgentEvent)
    requires e.kind == KindSystem
    ensures ApplySystem(p, e).finals == FinalsStep(p.finals, e)
  {
    var q := if ResetsFinal(e) then ArchiveFinal(p, e, BEFORE_ITERATION, true) else p;
    ArchiveFinals(p, e, BEFORE_ITERATION, true);
    WriteRowFinals(q, SystemRow(e));
  }

  lemma AssistantFinals(p: Projection, e: AgentEvent)
    requires e.kind == KindAssistant
    ensures ApplyAssistant(p, e).finals == FinalsStep(p.finals, e)
  {
    WriteRowFinals(p, SideRow(e));
  }

  lemma FinalsAfter(p: Projection, e: AgentEvent)
    ensures ApplyKind(p, e).finals == FinalsStep(p.finals, e)
  {
    match e.kind
    case KindTurn => TurnFinals(p, e);
    case KindTool => ToolFinals(p, e);
    case KindSystem => SystemFinals(p, e);
    case KindPlan => WriteRowFinals(p, PlanRow(e));
    case KindEvidence => WriteRowFinals(p, EvidenceRow(e));
    case KindReasoning => WriteRowFinals(p, ReasoningRow(e));
    case KindAssistant => AssistantFinals(p, e);
    case _ =>
  }

  lemma StepFinals(p: Projection, e: AgentEvent)
    ensures Step(p, e).finals == FinalsStep(p.finals, e)
  {
    FinalsAfter(Prepare(p, e), e);
    assert Prepare(p, e).finals == p.finals;
    assert Step(p, e).finals == ApplyKind(Prepare(p, e), e).finals;
  }

  /** One event either archives the running text, extends it, or leaves it alone. */
  lemma RunningAfter(finals: Finals, e: AgentEvent, t: string)
    requires AppendsOnly(e, t) && t != ""
    ensures RunningText(FinalsStep(finals, e), t) ==
      if e.turnID == t && ArchivesNow(finals, e) then ""
      else RunningText(finals, t) + if Streams(e, t) then FinalText(e) else ""
  {
  }

  lemma ConcatStep(pieces: seq<string>, last: string)
    ensures Concat(pieces + [last]) == Concat(pieces) + last
  {
    assert (pieces + [last])[..|pieces|] == pieces;
  }

  /** Archiving moves the running text to the end of the pieces; nothing else changes the pieces. */
  lemma TextStep(finals: Finals, e: AgentEvent, t: string, pieces: seq<string>)
    requires AppendsOnly(e, t) && t != ""
    ensures Concat(pieces + NewPiece(finals, e, t)) + RunningText(FinalsStep(finals, e), t)
         == Concat(pieces) + RunningText(finals, t) + if Streams(e, t) then FinalText(e) else ""
  {
    RunningAfter(finals, e, t);
    if e.turnID == t && ArchivesNow(finals, e) {
      ConcatStep(pieces, finals[t].text);
    } else {
      assert pieces + [] == pieces;
    }
  }

  /** Conservation: the streamed text is the archived pieces followed by the running text. */
  lemma {:induction false} StreamedIsArchivedThenRunning(sessionID: string, events: seq<AgentEvent>, t: string)
    requires Replay(sessionID, events).Success? && t != ""
    requires forall i :: 0 <= i < |events| ==> AppendsOnly(events[i], t)
    ensures Streamed(events, t)
         == Concat(Pieces(sessionID, events, t)) + RunningText(Replay(sessionID, events).value.finals, t)
  {
    if events != [] {
      var before, e := events[..|events| - 1], events[|events| - 1];
      SplitLast(events);
      ReplayStep(sessionID, before, e);
      StreamedIsArchivedThenRunning(sessionID, before, t);
      var p := Replay(sessionID, before).value;
      StepFinals(p, e);
      TextStep(p.finals, e, t, Pieces(sessionID, before, t));
    }
  }

  // ---------------------------------------------------------------- archived text stays visible

  /** The non-blank archive rows of turn `t`, in order. */
  function ArchivedEntries(sessionID: string, events: seq<AgentEvent>, t: string): seq<TimelineEntry>
    requires Replay(sessionID, events).Success?
  {
    if events == [] then []
    else
      var before, e := events[..|events| - 1], events[|events| - 1];
      ArchivedEntries(sessionID, before, t) + NewArchive(Replay(sessionID, before).value.finals, e, t)
  }

  function NewArchive(finals: Finals, e: AgentEvent, t: string): seq<TimelineEntry> {
    if e.turnID == t && ArchivesNow(finals, e) && TrimSpace(finals[t].text) != ""
    then [ArchiveRow(finals[t], e, ArchiveKind(e))] else []
  }

  function NonBlank(pieces: seq<string>): seq<string> {
    if pieces == [] then []
    else
      var text := TrimSpace(pieces[|pieces| - 1]);
      NonBlank(pieces[..|pieces| - 1]) + if text == "" then [] else [text]
  }

  function Summaries(rows: seq<TimelineEntry>): (r: seq<string>)
    ensures |r| == |rows| && forall i :: 0 <= i < |rows| ==> r[i] == rows[i].summary
  {
    seq(|rows|, i requires 0 <= i < |rows| => rows[i].summary)
  }

  lemma NewArchiveCarries(finals: Finals, e: AgentEvent, t: string)
    ensures Summaries(NewArchive(finals, e, t)) == NonBlank(NewPiece(finals, e, t))
  {
    if e.turnID == t && ArchivesNow(finals, e) {
      assert ArchiveRow(finals[t], e, ArchiveKind(e)).summary == TrimSpace(finals[t].text);
      assert NonBlank([]) == [];
    }
  }

  lemma NonBlankConcat(a: seq<string>, b: seq<string>)
    requires |b| <= 1
    ensures NonBlank(a + b) == NonBlank(a) + NonBlank(b)
  {
    if b == [] {
      assert a + b == a;
    } else {
      assert (a + b)[..|a|] == a && b[..0] == [];
    }
  }

  lemma CarryStep(pieces: seq<string>, entries: seq<TimelineEntry>, finals: Finals, e: AgentEvent, t: string)
    requires Summaries(entries) == NonBlank(pieces)
    ensures Summaries(entries + NewArchive(finals, e, t)) == NonBlank(pieces + NewPiece(finals, e, t))
  {
    NewArchiveCarries(finals, e, t);
    NonBlankConcat(pieces, NewPiece(finals, e, t));
    SummariesConcat(entries, NewArchive(finals, e, t));
  }

  lemma SummariesConcat(a: seq<TimelineEntry>, b: seq<TimelineEntry>)
    ensures Summaries(a + b) == Summaries(a) + Summaries(b)
  {
  }

  /** The archive rows carry the non-blank pieces, trimmed. */
  lemma {:induction false} EntriesCarryPieces(sessionID: string, events: seq<AgentEvent>, t: string)
    requires Replay(sessionID, events).Success?
    ensures Summaries(ArchivedEntries(sessionID, events, t)) == NonBlank(Pieces(sessionID, events, t))
  {
    if events != [] {
      var before, e := events[..|events| - 1], events[|events| - 1];
      EntriesCarryPieces(sessionID, before, t);
      CarryStep(Pieces(sessionID, before, t), ArchivedEntries(sessionID, before, t),
                Replay(sessionID, before).value.finals, e, t);
    }
  }

  /** Some row shows this archived text under its id. */
  predicate Shows(rows: seq<TimelineEntry>, a: TimelineEntry) {
    exists i :: 0 <= i < |rows| && ShowsText(rows[i], a)
  }

  predicate ShowsText(row: TimelineEntry, a: TimelineEntry) {
    SameRow(row, a.id, a.kind) && row.turnID == a.turnID && row.summary == a.summary
    && row.displayKind == a.displayKind
  }

  lemma UpsertKeepsShown(rows: seq<TimelineEntry>, row: TimelineEntry, a: TimelineEntry)
    requires Shows(rows, a) && !SameRow(row, a.id, a.kind)
    ensures Shows(Upsert(rows, row), a)
  {
    var i :| 0 <= i < |rows| && ShowsText(rows[i], a);
    assert ShowsText(Upsert(rows, row)[i], a);
  }

  lemma UpsertShows(rows: seq<TimelineEntry>, a: TimelineEntry)
    requires a.summary != ""
    ensures Shows(Upsert(rows, a), a)
  {
    assert ShowsText(Upsert(rows, a)[RowIndex(rows, a.id, a.kind)], a);
  }

  predicate Untouched(rows: seq<TimelineEntry>, a: TimelineEntry) {
    forall i :: 0 <= i < |rows| ==> !SameRow(rows[i], a.id, a.kind)
  }

  lemma {:induction false} WriteAllKeepsShown(b: Board, rows: seq<TimelineEntry>, a: TimelineEntry)
    requires Shows(b.timeline, a) && Untouched(rows, a)
    ensures Shows(WriteAll(b, rows).timeline, a)
    decreases |rows|
  {
    if rows != [] {
      UpsertKeepsShown(b.timeline, rows[0], a);
      WriteAllKeepsShown(Write(b, rows[0]), rows[1..], a);
    }
  }

  lemma TurnKeepsShown(p: Projection, e: AgentEvent, a: TimelineEntry)
    requires Shows(p.timeline, a) && a.kind == KindAssistant && a.displayKind == "assistant.process"
    requires e.kind == KindTurn
    ensures Shows(ApplyTurn(p, e).timeline, a)
  {
    TurnBoard(p, e);
    var b := BoardOf(TurnLiveness(p, e));
    assert Shows(b.timeline, a) by {
      var i :| 0 <= i < |p.timeline| && ShowsText(p.timeline[i], a);
      assert ShowsText(b.timeline[i], a);
    }
    if TurnRowID(p, e) != "" {
      UpsertKeepsShown(b.timeline, TurnRow(e, TurnRowID(p, e)), a);
    }
  }

  predicate IsArchive(a: TimelineEntry) {
    a.kind == KindAssistant && a.displayKind == "assistant.process" && a.summary != ""
  }

  /** An event that does not write the id of an archived text keeps it shown. */
  lemma StepKeepsShown(p: Projection, e: AgentEvent, a: TimelineEntry)
    requires Shows(p.timeline, a) && IsArchive(a) && Untouched(RowsWritten(p.finals, e), a)
    ensures Shows(Step(p, e).timeline, a)
  {
    PreparedRows(p, e);
    if e.kind == KindTurn {
      TurnKeepsShown(Prepare(p, e), e, a);
    } else {
      ApplyBoard(Prepare(p, e), e);
      WriteAllKeepsShown(BoardOf(p), RowsWritten(p.finals, e), a);
    }
  }

  /** Freshly archived text is shown. */
  lemma StepShowsNew(p: Projection, e: AgentEvent, t: string, a: TimelineEntry)
    requires NewArchive(p.finals, e, t) == [a]
    ensures Shows(Step(p, e).timeline, a) && IsArchive(a)
  {
    hide ArchiveRow, RowsWritten, WriteAll;
    PreparedRows(p, e);
    ApplyBoard(Prepare(p, e), e);
    var last := NewThenOther(p.finals, e, t, a);
    NewThenLast(BoardOf(p), a, last);
  }

  /** Archived text is written in front of one row of another kind. */
  lemma NewThenOther(finals: Finals, e: AgentEvent, t: string, a: TimelineEntry) returns (last: TimelineEntry)
    requires NewArchive(finals, e, t) == [a]
    ensures RowsWritten(finals, e) == [a] + [last] && last.kind != a.kind && IsArchive(a) && e.kind != KindTurn
  {
    last := if e.kind == KindTool then ToolRow(e) else SystemRow(e);
    EventRowKinds(e);
  }

  lemma NewThenLast(b: Board, a: TimelineEntry, last: TimelineEntry)
    requires a.summary != "" && last.kind != a.kind
    ensures Shows(WriteAll(b, [a] + [last]).timeline, a)
  {
    WriteAllThen(b, [a], last);
    assert WriteAll(b, [a]) == Write(b, a);
    UpsertShows(b.timeline, a);
    UpsertKeepsShown(Upsert(b.timeline, a), last, a);
  }

  // ---------------------------------------------------------------- ids

  /** Archive ids of one turn differ when the ids of the archiving events do. */
  lemma ArchiveIDsDiffer(e: AgentEvent, k: string, f: AgentEvent, l: string)
    requires e.turnID == f.turnID && SourceID(e) != SourceID(f)
    requires ArchiveKindName(k) && ArchiveKindName(l)
    ensures ArchiveID(e, k) != ArchiveID(f, l)
  {
    if k == l {
      TailsDiffer(e.turnID + ":" + k + ":", SourceID(e), SourceID(f));
    } else {
      KindNamesDiffer(k, l);
      MiddleDiffers(e.turnID, k, SourceID(e), l, SourceID(f));
    }
  }

  lemma KindNamesDiffer(k: string, l: string)
    requires ArchiveKindName(k) && ArchiveKindName(l) && k != l
    ensures |k| > 17 && |l| > 17 && k[17] != l[17]
  {
  }

  lemma MiddleDiffers(t: string, k: string, x: string, l: string, y: string)
    requires |k| > 17 && |l| > 17 && k[17] != l[17]
    ensures t + ":" + k + ":" + x != t + ":" + l + ":" + y
  {
    assert (t + ":" + k + ":" + x)[|t| + 18] == k[17];
    assert (t + ":" + l + ":" + y)[|t| + 18] == l[17];
  }

  lemma TailsDiffer(head: string, x: string, y: string)
    requires x != y
    ensures head + x != head + y
  {
    assert (head + x)[|head|..] == x && (head + y)[|head|..] == y;
  }

  predicate ArchiveKindName(k: string) {
    k == BEFORE_TOOL || k == BEFORE_ITERATION
  }

  /**
   Events have distinct source ids, and no id an archive row of turn `t` may take is the id of an
   assistant side text or of another turn's archive row.
   */
  ghost predicate ArchiveIDsReserved(events: seq<AgentEvent>, t: string) {
    forall i, j :: 0 <= i < |events| && 0 <= j < |events| && i != j && events[i].turnID == t ==>
      Reserved(events[i], events[j], t)
  }

  ghost predicate Reserved(e: AgentEvent, f: AgentEvent, t: string) {
    && SourceID(e) != SourceID(f)
    && (forall k :: ArchiveKindName(k) ==> SideRow(f).id != ArchiveID(e, k))
    && (f.turnID != t ==> forall k, l :: ArchiveKindName(k) && ArchiveKindName(l) ==> ArchiveID(f, l) != ArchiveID(e, k))
  }

  /** An event leaves alone the archive row of any other event of turn `t`. */
  lemma OtherEventsLeaveIt(finals: Finals, f: AgentEvent, e: AgentEvent, k: string, a: TimelineEntry, t: string)
    requires e.turnID == t && Reserved(e, f, t) && ArchiveKindName(k)
    requires a.kind == KindAssistant && a.id == ArchiveID(e, k)
    ensures Untouched(RowsWritten(finals, f), a)
  {
    EventRowKinds(f);
    if f.turnID == t {
      ArchiveIDsDiffer(e, k, f, BEFORE_TOOL);
      ArchiveIDsDiffer(e, k, f, BEFORE_ITERATION);
    } else {
      assert ArchiveKindName(BEFORE_TOOL) && ArchiveKindName(BEFORE_ITERATION);
    }
    WrittenIDs(finals, f, a);
  }

  lemma WrittenIDs(finals: Finals, f: AgentEvent, a: TimelineEntry)
    requires a.kind == KindAssistant && SideRow(f).id != a.id
    requires ArchiveID(f, BEFORE_TOOL) != a.id && ArchiveID(f, BEFORE_ITERATION) != a.id
    ensures Untouched(RowsWritten(finals, f), a)
  {
    match f.kind
    case KindTool =>
      ArchivedIDs(finals, f, BEFORE_TOOL, false, a);
      OtherKind(ToolRow(f), f, a);
      UntouchedBoth(ArchivedRows(finals, f, BEFORE_TOOL, false), [ToolRow(f)], a);
    case KindSystem =>
      ArchivedIDs(finals, f, BEFORE_ITERATION, true, a);
      OtherKind(SystemRow(f), f, a);
      UntouchedBoth(if ResetsFinal(f) then ArchivedRows(finals, f, BEFORE_ITERATION, true) else [], [SystemRow(f)], a);
    case KindPlan => OtherKind(PlanRow(f), f, a);
    case KindEvidence => OtherKind(EvidenceRow(f), f, a);
    case KindReasoning => OtherKind(ReasoningRow(f), f, a);
    case _ =>
  }

  lemma OtherKind(row: TimelineEntry, f: AgentEvent, a: TimelineEntry)
    requires row in {ToolRow(f), SystemRow(f), PlanRow(f), EvidenceRow(f), ReasoningRow(f)}
    requires f.kind != KindAssistant == a.kind
    ensures Untouched([row], a)
  {
    EventRowKinds(f);
  }

  lemma ArchivedIDs(finals: Finals, f: AgentEvent, k: string, includeCompleted: bool, a: TimelineEntry)
    requires ArchiveID(f, k) != a.id
    ensures Untouched(ArchivedRows(finals, f, k, includeCompleted), a)
  {
  }

  lemma UntouchedBoth(x: seq<TimelineEntry>, y: seq<TimelineEntry>, a: TimelineEntry)
    requires Untouched(x, a) && Untouched(y, a)
    ensures Untouched(x + y, a)
  {
  }

  /** Every archived entry of the turn takes the archive id of one of its events. */
  ghost predicate ArchivedBy(events: seq<AgentEvent>, t: string, a: TimelineEntry) {
    exists i :: 0 <= i < |events| && events[i].turnID == t
      && (a.id == ArchiveID(events[i], BEFORE_TOOL) || a.id == ArchiveID(events[i], BEFORE_ITERATION))
  }

  lemma ArchivedByLonger(before: seq<AgentEvent>, e: AgentEvent, t: string, a: TimelineEntry)
    requires ArchivedBy(before, t, a) || (e.turnID == t && a.id == ArchiveID(e, ArchiveKind(e)))
    ensures ArchivedBy(before + [e], t, a)
  {
    var all := before + [e];
    assert all[|before|] == e;
    if ArchivedBy(before, t, a) {
      var i :| 0 <= i < |before| && before[i].turnID == t
        && (a.id == ArchiveID(before[i], BEFORE_TOOL) || a.id == ArchiveID(before[i], BEFORE_ITERATION));
      assert all[i] == before[i];
    }
  }

  lemma ReservedPrefix(before: seq<AgentEvent>, e: AgentEvent, t: string)
    requires ArchiveIDsReserved(before + [e], t)
    ensures ArchiveIDsReserved(before, t)
    ensures forall i :: 0 <= i < |before| && before[i].turnID == t ==> Reserved(before[i], e, t)
  {
    var all := before + [e];
    assert all[|before|] == e;
    assert forall i :: 0 <= i < |before| ==> all[i] == before[i];
  }

  lemma StaysShown(p: Projection, before: seq<AgentEvent>, e: AgentEvent, t: string, a: TimelineEntry)
    requires forall i :: 0 <= i < |before| && before[i].turnID == t ==> Reserved(before[i], e, t)
    requires ArchivedBy(before, t, a) && IsArchive(a) && Shows(p.timeline, a)
    ensures Shows(Step(p, e).timeline, a)
  {
    var i :| 0 <= i < |before| && before[i].turnID == t
      && (a.id == ArchiveID(before[i], BEFORE_TOOL) || a.id == ArchiveID(before[i], BEFORE_ITERATION));
    var k := if a.id == ArchiveID(before[i], BEFORE_TOOL) then BEFORE_TOOL else BEFORE_ITERATION;
    OtherEventsLeaveIt(p.finals, e, before[i], k, a, t);
    StepKeepsShown(p, e, a);
  }

  /** Every non-blank archived piece of the turn is on the timeline at the end, trimmed. */
  lemma {:induction false} ArchivedTextStays(sessionID: string, events: seq<AgentEvent>, t: string, a: TimelineEntry)
    requires Replay(sessionID, events).Success? && ArchiveIDsReserved(events, t)
    requires a in ArchivedEntries(sessionID, events, t)
    ensures Shows(Replay(sessionID, events).value.timeline, a)
    ensures IsArchive(a) && a.turnID == t && ArchivedBy(events, t, a)
  {
    var before, e := events[..|events| - 1], events[|events| - 1];
    SplitLast(events);
    ReplayStep(sessionID, before, e);
    ReservedPrefix(before, e, t);
    var p := Replay(sessionID, before).value;
    if a in ArchivedEntries(sessionID, before, t) {
      ArchivedTextStays(sessionID, before, t, a);
      StaysShown(p, before, e, t, a);
    } else {
      StepShowsNew(p, e, t, a);
    }
    ArchivedByLonger(before, e, t, a);
  }
}
