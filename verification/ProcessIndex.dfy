/**
 The process groups are an index over the timeline: the rows of a turn, in timeline order.

 A row id may only be used under one turn. `WriteKeepsIndex` says exactly which single
 write keeps the index, `IndexHolds` that it holds after any history that respects this.
 */
module ProcessIndex {
  import opened Wrappers
  import opened Text
  import opened AgentEvents
  import opened Projector

  /** The two views of the rows. */
  datatype Board = Board(timeline: seq<TimelineEntry>, groups: map<string, seq<TimelineEntry>>)

  function BoardOf(p: Projection): Board {
    Board(p.timeline, p.groups)
  }

  function GroupOf(b: Board, turnID: string): seq<TimelineEntry> {
    if turnID in b.groups then b.groups[turnID] else []
  }

  function Write(b: Board, row: TimelineEntry): Board {
    Board(Upsert(b.timeline, row),
          if row.turnID == "" then b.groups
          else b.groups[row.turnID := Upsert(GroupOf(b, row.turnID), row)])
  }

  predicate InTurn(row: TimelineEntry, turnID: string) {
    row.kind != KindTurn && row.turnID == turnID
  }

  function One(row: TimelineEntry, turnID: string): seq<TimelineEntry> {
    if InTurn(row, turnID) then [row] else []
  }

  /** The rows of a turn in timeline order, leaving out the rows of the turn events themselves. */
  function RowsOf(rows: seq<TimelineEntry>, turnID: string): seq<TimelineEntry> {
    if rows == [] then [] else One(rows[0], turnID) + RowsOf(rows[1..], turnID)
  }

  /** Every turn's group lists exactly its rows. */
  ghost predicate Indexed(b: Board) {
    forall t :: t != "" ==> GroupOf(b, t) == RowsOf(b.timeline, t)
  }

  predicate UniqueRows(rows: seq<TimelineEntry>) {
    forall i, j :: 0 <= i < j < |rows| ==> !SameRow(rows[j], rows[i].id, rows[i].kind)
  }

  // ---------------------------------------------------------------- one write

  lemma {:induction false} RowsOfMember(rows: seq<TimelineEntry>, t: string, x: TimelineEntry)
    ensures x in RowsOf(rows, t) <==> x in rows && InTurn(x, t)
  {
    if rows != [] {
      RowsOfMember(rows[1..], t, x);
      assert rows == [rows[0]] + rows[1..];
    }
  }

  lemma {:induction false} RowsOfConcat(a: seq<TimelineEntry>, b: seq<TimelineEntry>, t: string)
    ensures RowsOf(a + b, t) == RowsOf(a, t) + RowsOf(b, t)
  {
    if a == [] {
      assert a + b == b;
    } else {
      assert (a + b)[1..] == a[1..] + b;
      RowsOfConcat(a[1..], b, t);
    }
  }

  /** The rows of a turn, split around one position of the timeline. */
  lemma RowsOfAround(front: seq<TimelineEntry>, x: TimelineEntry, back: seq<TimelineEntry>, t: string)
    ensures RowsOf(front + [x] + back, t) == RowsOf(front, t) + One(x, t) + RowsOf(back, t)
  {
    RowsOfConcat(front + [x], back, t);
    RowsOfConcat(front, [x], t);
    assert RowsOf([x], t) == One(x, t);
  }

  predicate Absent(rows: seq<TimelineEntry>, row: TimelineEntry) {
    forall i :: 0 <= i < |rows| ==> !SameRow(rows[i], row.id, row.kind)
  }

  lemma UpsertAbsent(rows: seq<TimelineEntry>, row: TimelineEntry)
    requires Absent(rows, row)
    ensures Upsert(rows, row) == rows + [row]
  {
  }

  lemma UpsertPresent(front: seq<TimelineEntry>, x: TimelineEntry, back: seq<TimelineEntry>, row: TimelineEntry)
    requires Absent(front, row) && SameRow(x, row.id, row.kind)
    ensures Upsert(front + [x] + back, row) == front + [Merge(x, row)] + back
  {
    var rows := front + [x] + back;
    var i := RowIndex(rows, row.id, row.kind);
    assert rows[|front|] == x;
    assert forall j :: 0 <= j < |front| ==> rows[j] == front[j];
    assert i == |front|;
  }

  lemma AbsentRowsOf(rows: seq<TimelineEntry>, t: string, row: TimelineEntry)
    requires Absent(rows, row)
    ensures Absent(RowsOf(rows, t), row)
  {
    forall k | 0 <= k < |RowsOf(rows, t)| ensures !SameRow(RowsOf(rows, t)[k], row.id, row.kind) {
      RowsOfMember(rows, t, RowsOf(rows, t)[k]);
    }
  }

  lemma UpsertKeepsUnique(rows: seq<TimelineEntry>, row: TimelineEntry)
    requires UniqueRows(rows)
    ensures UniqueRows(Upsert(rows, row))
  {
  }

  /** The row already shown under this id, if any, belongs to the same turn. */
  predicate SameTurn(rows: seq<TimelineEntry>, row: TimelineEntry) {
    var i := RowIndex(rows, row.id, row.kind);
    i < |rows| ==> rows[i].turnID == row.turnID
  }

  /** Filtering commutes with a write that does not move a row to another turn. */
  lemma RowsOfUpsert(rows: seq<TimelineEntry>, row: TimelineEntry, t: string)
    requires row.kind != KindTurn && SameTurn(rows, row)
    ensures RowsOf(Upsert(rows, row), t) ==
      if t == row.turnID then Upsert(RowsOf(rows, t), row) else RowsOf(rows, t)
  {
    var i := RowIndex(rows, row.id, row.kind);
    if i == |rows| {
      RowsOfConcat(rows, [row], t);
      AbsentRowsOf(rows, t, row);
      UpsertAbsent(RowsOf(rows, t), row);
    } else {
      var front, x, back := rows[..i], rows[i], rows[i + 1..];
      assert rows == front + [x] + back;
      RowsOfAround(front, x, back, t);
      RowsOfAround(front, Merge(x, row), back, t);
      assert Upsert(rows, row) == front + [Merge(x, row)] + back;
      if t == row.turnID {
        AbsentRowsOf(front, t, row);
        UpsertPresent(RowsOf(front, t), x, RowsOf(back, t), row);
      }
    }
  }

  /** A turn row never shows up in a group. */
  lemma RowsOfTurnRow(rows: seq<TimelineEntry>, row: TimelineEntry, t: string)
    requires row.kind == KindTurn
    ensures RowsOf(Upsert(rows, row), t) == RowsOf(rows, t)
  {
    var i := RowIndex(rows, row.id, row.kind);
    if i == |rows| {
      RowsOfConcat(rows, [row], t);
    } else {
      var front, x, back := rows[..i], rows[i], rows[i + 1..];
      assert rows == front + [x] + back;
      RowsOfAround(front, x, back, t);
      RowsOfAround(front, Merge(x, row), back, t);
      assert Upsert(rows, row) == front + [Merge(x, row)] + back;
    }
  }

  /**
   A row that was first shown outside any turn may still join the turn `row.turnID`, provided it is
   the last of that turn's rows and nothing of its old text survives the merge.
   */
  predicate JoinsAtEnd(rows: seq<TimelineEntry>, row: TimelineEntry) {
    var i := RowIndex(rows, row.id, row.kind);
    i < |rows| && rows[i].turnID == "" && RowsOf(rows[i + 1..], row.turnID) == []
    && Merge(rows[i], row) == row
  }

  /** A single write keeps the index if and only if it does not move a row between turns. */
  lemma WriteKeepsIndex(b: Board, row: TimelineEntry)
    requires Indexed(b) && UniqueRows(b.timeline) && row.kind != KindTurn
    ensures Indexed(Write(b, row)) <==> SameTurn(b.timeline, row) || JoinsAtEnd(b.timeline, row)
  {
    if SameTurn(b.timeline, row) {
      forall t | t != "" ensures GroupOf(Write(b, row), t) == RowsOf(Write(b, row).timeline, t) {
        RowsOfUpsert(b.timeline, row, t);
      }
    } else {
      var i := RowIndex(b.timeline, row.id, row.kind);
      MovedRow(b, row, b.timeline[..i], b.timeline[i], b.timeline[i + 1..]);
    }
  }

  lemma MovedRow(b: Board, row: TimelineEntry, front: seq<TimelineEntry>, x: TimelineEntry, back: seq<TimelineEntry>)
    requires Indexed(b) && row.kind != KindTurn
    requires b.timeline == front + [x] + back && Absent(front, row) && Absent(back, row)
    requires SameRow(x, row.id, row.kind) && x.turnID != row.turnID
    ensures Indexed(Write(b, row)) <==> x.turnID == "" && RowsOf(back, row.turnID) == [] && Merge(x, row) == row
  {
    var after := Write(b, row);
    UpsertPresent(front, x, back, row);
    if x.turnID != "" {
      var t := x.turnID;
      RowsOfAround(front, x, back, t);
      RowsOfAround(front, Merge(x, row), back, t);
      assert GroupOf(after, t) == GroupOf(b, t) == RowsOf(b.timeline, t);
      assert |RowsOf(after.timeline, t)| < |RowsOf(b.timeline, t)|;
    } else {
      OtherTurnsKept(b, row, front, x, back);
      NewcomerGroup(b, row, front, x, back);
    }
  }

  lemma OtherTurnsKept(b: Board, row: TimelineEntry, front: seq<TimelineEntry>, x: TimelineEntry, back: seq<TimelineEntry>)
    requires Indexed(b) && row.turnID != "" && x.turnID == ""
    requires b.timeline == front + [x] + back && Upsert(b.timeline, row) == front + [Merge(x, row)] + back
    ensures forall u :: u != "" && u != row.turnID ==> GroupOf(Write(b, row), u) == RowsOf(Write(b, row).timeline, u)
  {
    forall u | u != "" && u != row.turnID ensures GroupOf(Write(b, row), u) == RowsOf(Write(b, row).timeline, u) {
      RowsOfAround(front, x, back, u);
      RowsOfAround(front, Merge(x, row), back, u);
      assert GroupOf(b, u) == RowsOf(b.timeline, u);
    }
  }

  /** The row joins its turn in the middle of the timeline but at the end of the group. */
  lemma NewcomerGroup(b: Board, row: TimelineEntry, front: seq<TimelineEntry>, x: TimelineEntry, back: seq<TimelineEntry>)
    requires Indexed(b) && row.kind != KindTurn && row.turnID != "" && x.turnID == ""
    requires Absent(front, row) && Absent(back, row) && SameRow(x, row.id, row.kind)
    requires b.timeline == front + [x] + back && Upsert(b.timeline, row) == front + [Merge(x, row)] + back
    ensures GroupOf(Write(b, row), row.turnID) == RowsOf(Write(b, row).timeline, row.turnID)
      <==> RowsOf(back, row.turnID) == [] && Merge(x, row) == row
  {
    var t := row.turnID;
    RowsOfAround(front, Merge(x, row), back, t);
    AppendedToGroup(b, row, RowsOf(front, t), RowsOf(back, t), front, x, back);
    AbsentRowsOf(back, t, row);
    EndOrMiddle(RowsOf(front, t), RowsOf(back, t), Merge(x, row), row);
  }

  lemma AppendedToGroup(b: Board, row: TimelineEntry, f: seq<TimelineEntry>, k: seq<TimelineEntry>,
                        front: seq<TimelineEntry>, x: TimelineEntry, back: seq<TimelineEntry>)
    requires Indexed(b) && row.turnID != "" && x.turnID == ""
    requires Absent(front, row) && Absent(back, row)
    requires b.timeline == front + [x] + back
    requires f == RowsOf(front, row.turnID) && k == RowsOf(back, row.turnID)
    ensures GroupOf(Write(b, row), row.turnID) == f + k + [row]
  {
    RowsOfAround(front, x, back, row.turnID);
    assert GroupOf(b, row.turnID) == f + k;
    AbsentRowsOf(front, row.turnID, row);
    AbsentRowsOf(back, row.turnID, row);
    UpsertAbsent(f + k, row);
  }

  lemma EndOrMiddle(f: seq<TimelineEntry>, k: seq<TimelineEntry>, m: TimelineEntry, row: TimelineEntry)
    requires Absent(k, row) && SameRow(m, row.id, row.kind)
    ensures f + k + [row] == f + [m] + k <==> k == [] && m == row
  {
    assert (f + [m] + k)[|f|] == m;
    assert (f + k + [row])[|f|] == if k == [] then row else k[0];
  }

  // ---------------------------------------------------------------- a whole history

  function ArchivedRows(finals: Finals, e: AgentEvent, idKind: string, includeCompleted: bool): seq<TimelineEntry> {
    if !Archives(finals, e, includeCompleted) || TrimSpace(finals[e.turnID].text) == "" then []
    else [ArchiveRow(finals[e.turnID], e, idKind)]
  }

  /** The rows an event writes besides the row of a turn event. */
  function RowsWritten(finals: Finals, e: AgentEvent): seq<TimelineEntry> {
    match e.kind
    case KindTool => ArchivedRows(finals, e, BEFORE_TOOL, false) + [ToolRow(e)]
    case KindSystem => (if ResetsFinal(e) then ArchivedRows(finals, e, BEFORE_ITERATION, true) else []) + [SystemRow(e)]
    case KindPlan => [PlanRow(e)]
    case KindEvidence => [EvidenceRow(e)]
    case KindReasoning => [ReasoningRow(e)]
    case KindAssistant => if IsSideText(e) && SideText(e) != "" && e.turnID != "" then [SideRow(e)] else []
    case _ => []
  }

  function WriteAll(b: Board, rows: seq<TimelineEntry>): Board
    decreases |rows|
  {
    if rows == [] then b else WriteAll(Write(b, rows[0]), rows[1..])
  }

  lemma ArchiveBoard(p: Projection, e: AgentEvent, idKind: string, includeCompleted: bool)
    ensures BoardOf(ArchiveFinal(p, e, idKind, includeCompleted))
         == WriteAll(BoardOf(p), ArchivedRows(p.finals, e, idKind, includeCompleted))
  {
  }

  lemma WriteRowBoard(p: Projection, row: TimelineEntry)
    ensures BoardOf(WriteRow(p, row)) == Write(BoardOf(p), row)
  {
  }

  lemma WriteAllThen(b: Board, rows: seq<TimelineEntry>, last: TimelineEntry)
    requires |rows| <= 1
    ensures WriteAll(b, rows + [last]) == Write(WriteAll(b, rows), last)
  {
    if rows != [] {
      assert (rows + [last])[1..] == [last] && rows[1..] == [] && (rows + [last])[0] == rows[0];
      assert WriteAll(Write(b, rows[0]), [last]) == Write(Write(b, rows[0]), last);
    } else {
      assert rows + [last] == [last];
    }
  }

  /** Apart from turn events, an event changes the rows only by the rows it writes. */
  lemma ApplyBoard(p: Projection, e: AgentEvent)
    requires e.kind != KindTurn
    ensures BoardOf(ApplyKind(p, e)) == WriteAll(BoardOf(p), RowsWritten(p.finals, e))
  {
    match e.kind
    case KindTool =>
      var q := ArchiveFinal(p, e, BEFORE_TOOL, false);
      ArchiveBoard(p, e, BEFORE_TOOL, false);
      WriteRowBoard(q, ToolRow(e));
      WriteAllThen(BoardOf(p), ArchivedRows(p.finals, e, BEFORE_TOOL, false), ToolRow(e));
    case KindSystem =>
      var archived := if ResetsFinal(e) then ArchivedRows(p.finals, e, BEFORE_ITERATION, true) else [];
      ArchiveBoard(p, e, BEFORE_ITERATION, true);
      WriteRowBoard(if ResetsFinal(e) then ArchiveFinal(p, e, BEFORE_ITERATION, true) else p, SystemRow(e));
      WriteAllThen(BoardOf(p), archived, SystemRow(e));
    case KindPlan => WriteRowBoard(p, PlanRow(e));
    case KindEvidence => WriteRowBoard(p, EvidenceRow(e));
    case KindReasoning => WriteRowBoard(p, ReasoningRow(e));
    case KindAssistant => WriteRowBoard(p, SideRow(e));
    case _ =>
  }

  type Owner = (string, Kind) -> string

  /** Every row is shown under the one turn its (id, kind) pair is used for. */
  predicate Owned(rows: seq<TimelineEntry>, turnOf: Owner) {
    forall i :: 0 <= i < |rows| && rows[i].kind != KindTurn ==> rows[i].turnID == turnOf(rows[i].id, rows[i].kind)
  }

  ghost predicate Sound(b: Board, turnOf: Owner) {
    Indexed(b) && UniqueRows(b.timeline) && Owned(b.timeline, turnOf)
  }

  lemma WriteSound(b: Board, row: TimelineEntry, turnOf: Owner)
    requires Sound(b, turnOf) && row.kind != KindTurn && row.turnID == turnOf(row.id, row.kind)
    ensures Sound(Write(b, row), turnOf)
  {
    WriteKeepsIndex(b, row);
    UpsertKeepsUnique(b.timeline, row);
  }

  lemma {:induction false} WriteAllSound(b: Board, rows: seq<TimelineEntry>, turnOf: Owner)
    requires Sound(b, turnOf) && Owned(rows, turnOf)
    requires NoTurnRow(rows)
    ensures Sound(WriteAll(b, rows), turnOf)
    decreases |rows|
  {
    if rows != [] {
      WriteSound(b, rows[0], turnOf);
      WriteAllSound(Write(b, rows[0]), rows[1..], turnOf);
    }
  }

  /** Completing the activity rows of a turn commutes with filtering. */
  lemma {:induction false} RowsOfCompleted(rows: seq<TimelineEntry>, e: AgentEvent, t: string)
    ensures RowsOf(CompleteRows(rows, e), t) == CompleteRows(RowsOf(rows, t), e)
  {
    if rows != [] {
      RowsOfCompleted(rows[1..], e, t);
      assert CompleteRows(rows, e) == [CompleteRow(rows[0], e)] + CompleteRows(rows[1..], e);
      assert CompleteRows(rows, e)[1..] == CompleteRows(rows[1..], e);
    }
  }

  lemma OtherTurnUntouched(rows: seq<TimelineEntry>, e: AgentEvent, t: string)
    requires t != e.turnID
    ensures CompleteRows(RowsOf(rows, t), e) == RowsOf(rows, t)
  {
    forall i | 0 <= i < |RowsOf(rows, t)| ensures RowsOf(rows, t)[i].turnID == t {
      RowsOfMember(rows, t, RowsOf(rows, t)[i]);
    }
  }

  function Completed(b: Board, e: AgentEvent): Board {
    if e.turnID == "" then b
    else Board(CompleteRows(b.timeline, e),
               if e.turnID !in b.groups then b.groups
               else b.groups[e.turnID := CompleteRows(b.groups[e.turnID], e)])
  }

  lemma CompletedSound(b: Board, e: AgentEvent, turnOf: Owner)
    requires Sound(b, turnOf)
    ensures Sound(Completed(b, e), turnOf)
  {
    if e.turnID != "" {
      forall t | t != "" ensures GroupOf(Completed(b, e), t) == RowsOf(CompleteRows(b.timeline, e), t) {
        RowsOfCompleted(b.timeline, e, t);
        assert GroupOf(b, t) == RowsOf(b.timeline, t);
        if t != e.turnID {
          OtherTurnUntouched(b.timeline, e, t);
        }
      }
    }
  }

  lemma TurnBoard(p: Projection, e: AgentEvent)
    ensures BoardOf(TurnLiveness(p, e)) == if TerminalPhase(e.phase) then Completed(BoardOf(p), e) else BoardOf(p)
  {
    if TerminalPhase(e.phase) {
      var q := p.(live := p.live.(turns := p.live.turns - {e.turnID}, agents := {}, streams := {}),
                  finals := CompleteFinal(p.finals, e),
                  lastTerminalFailed := e.phase == PhaseFailed);
      var c := ClearApprovals(q, e.status, e.createdAt);
      assert BoardOf(c) == BoardOf(p);
      assert BoardOf(CompleteActivityRows(c, e)) == Completed(BoardOf(c), e);
    }
  }

  lemma TurnSound(p: Projection, e: AgentEvent, turnOf: Owner)
    requires Sound(BoardOf(p), turnOf) && e.kind == KindTurn
    ensures Sound(BoardOf(ApplyTurn(p, e)), turnOf)
  {
    TurnBoard(p, e);
    var b := BoardOf(TurnLiveness(p, e));
    assert Sound(b, turnOf) by {
      CompletedSound(BoardOf(p), e, turnOf);
    }
    if TurnRowID(p, e) != "" {
      TurnRowSound(b, TurnRow(e, TurnRowID(p, e)), turnOf);
      assert BoardOf(ApplyTurn(p, e)) == b.(timeline := Upsert(b.timeline, TurnRow(e, TurnRowID(p, e))));
    }
  }

  lemma TurnRowSound(b: Board, row: TimelineEntry, turnOf: Owner)
    requires Sound(b, turnOf) && row.kind == KindTurn
    ensures Sound(b.(timeline := Upsert(b.timeline, row)), turnOf)
  {
    UpsertKeepsUnique(b.timeline, row);
    forall t ensures RowsOf(Upsert(b.timeline, row), t) == RowsOf(b.timeline, t) {
      RowsOfTurnRow(b.timeline, row, t);
    }
  }

  /** No (row id, kind) pair is written under two turns anywhere in the history: `turnOf` names its turn. */
  ghost predicate OneTurnPerRow(sessionID: string, events: seq<AgentEvent>, turnOf: Owner)
    requires Replay(sessionID, events).Success?
  {
    events == [] ||
    var before, e := events[..|events| - 1], events[|events| - 1];
    OneTurnPerRow(sessionID, before, turnOf)
    && Owned(RowsWritten(Replay(sessionID, before).value.finals, e), turnOf)
  }

  /** After any such history the groups are exactly the timeline, filtered by turn. */
  lemma {:induction false} IndexHolds(sessionID: string, events: seq<AgentEvent>, turnOf: Owner)
    requires Replay(sessionID, events).Success?
    requires OneTurnPerRow(sessionID, events, turnOf)
    ensures Sound(BoardOf(Replay(sessionID, events).value), turnOf)
  {
    if events != [] {
      var before, e := events[..|events| - 1], events[|events| - 1];
      SplitLast(events);
      ReplayStep(sessionID, before, e);
      IndexHolds(sessionID, before, turnOf);
      var p := Replay(sessionID, before).value;
      StepSound(p, e, turnOf);
    }
  }

  lemma StepSound(p: Projection, e: AgentEvent, turnOf: Owner)
    requires Sound(BoardOf(p), turnOf) && Owned(RowsWritten(p.finals, e), turnOf)
    ensures Sound(BoardOf(Step(p, e)), turnOf)
  {
    PreparedRows(p, e);
    KindSound(Prepare(p, e), e, turnOf);
  }

  lemma PreparedRows(p: Projection, e: AgentEvent)
    ensures BoardOf(Prepare(p, e)) == BoardOf(p)
    ensures Prepare(p, e).finals == p.finals
  {
  }

  lemma KindSound(p: Projection, e: AgentEvent, turnOf: Owner)
    requires Sound(BoardOf(p), turnOf) && Owned(RowsWritten(p.finals, e), turnOf)
    ensures Sound(BoardOf(ApplyKind(p, e)), turnOf)
  {
    if e.kind == KindTurn {
      TurnSound(p, e, turnOf);
    } else {
      NoTurnRowWritten(p.finals, e);
      WriteAllSound(BoardOf(p), RowsWritten(p.finals, e), turnOf);
      ApplyBoard(p, e);
    }
  }

  lemma NoTurnRowWritten(finals: Finals, e: AgentEvent)
    requires e.kind != KindTurn
    ensures NoTurnRow(RowsWritten(finals, e))
  {
    EventRowKinds(e);
    match e.kind
    case KindTool =>
      ArchivedRowsKind(finals, e, BEFORE_TOOL, false);
      assert NoTurnRow([ToolRow(e)]);
    case KindSystem =>
      ArchivedRowsKind(finals, e, BEFORE_ITERATION, true);
      assert NoTurnRow([SystemRow(e)]);
    case _ =>
  }

  predicate NoTurnRow(rows: seq<TimelineEntry>) {
    forall i :: 0 <= i < |rows| ==> rows[i].kind != KindTurn
  }

  lemma EventRowKinds(e: AgentEvent)
    ensures ToolRow(e).kind == SystemRow(e).kind == PlanRow(e).kind == e.kind
    ensures EvidenceRow(e).kind == ReasoningRow(e).kind == SideRow(e).kind == e.kind
  {
  }

  lemma ArchivedRowsKind(finals: Finals, e: AgentEvent, idKind: string, includeCompleted: bool)
    ensures NoTurnRow(ArchivedRows(finals, e, idKind, includeCompleted))
  {
  }

  // ---------------------------------------------------------------- a row under two turns

  predicate SameEvidence(e: AgentEvent, f: AgentEvent) {
    e.kind == f.kind == KindEvidence && EvidenceRow(e).id == EvidenceRow(f).id
    && e.turnID != "" && f.turnID != "" && e.turnID != f.turnID
  }

  lemma OneWrite(p: Projection, e: AgentEvent)
    requires e.kind == KindEvidence
    ensures BoardOf(Step(p, e)) == Write(BoardOf(p), EvidenceRow(e)) && Step(p, e).sessionID == e.sessionID
  {
    PreparedRows(p, e);
    WriteRowBoard(Prepare(p, e), EvidenceRow(e));
  }

  lemma TwoSteps(sessionID: string, e: AgentEvent, f: AgentEvent)
    requires Validate(e).Pass? && Validate(f).Pass? && e.sessionID == f.sessionID == sessionID && SameEvidence(e, f)
    ensures Replay(sessionID, [e, f]) == Success(Step(Step(EmptyProjection(sessionID), e), f))
  {
    OneWrite(EmptyProjection(sessionID), e);
    assert [e][..0] == [] && [e, f][..1] == [e];
    assert Replay(sessionID, [e]) == Success(Step(EmptyProjection(sessionID), e));
  }

  lemma SecondTurnBreaksIndex(b: Board, e: AgentEvent, f: AgentEvent)
    requires b == Board([EvidenceRow(e)], map[e.turnID := [EvidenceRow(e)]]) && SameEvidence(e, f)
    ensures !Indexed(Write(b, EvidenceRow(f)))
  {
    var row, other := EvidenceRow(e), EvidenceRow(f);
    var merged := Merge(row, other);
    assert RowIndex(b.timeline, other.id, other.kind) == 0;
    assert Upsert(b.timeline, other) == [merged] && [merged][1..] == [];
    assert RowsOf([merged], e.turnID) == [];
  }

  lemma FirstBoard(sessionID: string, e: AgentEvent)
    requires e.kind == KindEvidence && e.turnID != ""
    ensures BoardOf(Step(EmptyProjection(sessionID), e)) == Board([EvidenceRow(e)], map[e.turnID := [EvidenceRow(e)]])
  {
    hide Step;
    OneWrite(EmptyProjection(sessionID), e);
    var row := EvidenceRow(e);
    assert row.turnID == e.turnID && Upsert([], row) == [row];
    assert GroupOf(Board([], map[]), e.turnID) == [];
    assert Write(Board([], map[]), row).groups == map[e.turnID := [row]];
  }

  /** An accepted history after which group and timeline disagree: one evidence row reported for two turns. */
  lemma RowUnderTwoTurns(sessionID: string, e: AgentEvent, f: AgentEvent)
    requires Validate(e).Pass? && Validate(f).Pass? && e.sessionID == f.sessionID == sessionID && SameEvidence(e, f)
    ensures Replay(sessionID, [e, f]).Success? && !Indexed(BoardOf(Replay(sessionID, [e, f]).value))
  {
    hide Step, Replay, EvidenceRow, Validate;
    TwoSteps(sessionID, e, f);
    FirstBoard(sessionID, e);
    OneWrite(Step(EmptyProjection(sessionID), e), f);
    SecondTurnBreaksIndex(BoardOf(Step(EmptyProjection(sessionID), e)), e, f);
  }

  const BLANK_PAYLOAD: Payload :=
    Payload("row", "", "", "", "", "", "", "", "", "", "", "", "", "", "", "", "", "", "", "", "", "", "", "", "", "",
            0, [], false, false)

  function Evidence(eventID: string, turnID: string): AgentEvent {
    AgentEvent(eventID, 0, "session", "", turnID, "", "", KindEvidence, PhaseCompleted, StatusCompleted, Primary,
               "agent", "now", "", BLANK_PAYLOAD)
  }

  lemma SomeIndexBreaks()
    ensures var events := [Evidence("e1", "t1"), Evidence("e2", "t2")];
      Replay("session", events).Success? && !Indexed(BoardOf(Replay("session", events).value))
  {
    assert Validate(Evidence("e1", "t1")).Pass? && Validate(Evidence("e2", "t2")).Pass?;
    RowUnderTwoTurns("session", Evidence("e1", "t1"), Evidence("e2", "t2"));
  }
}
