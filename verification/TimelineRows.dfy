/**
 The timeline as a reading of the rows written over the whole history: which rows there are, in
 which order, and which texts they show.
 */
module TimelineRows {
  import opened Wrappers
  import opened Text
  import opened AgentEvents
  import opened Projector
  import opened ProcessIndex

  datatype Field = Title | Summary | Detail | Preview

  function TextOf(row: TimelineEntry, f: Field): string {
    match f
    case Title => row.title
    case Summary => row.summary
    case Detail => row.detail
    case Preview => row.outputPreview
  }

  type RowKey = (string, Kind)

  function KeyOf(row: TimelineEntry): RowKey {
    (row.id, row.kind)
  }

  function KeysOf(rows: seq<TimelineEntry>): seq<RowKey> {
    seq(|rows|, i requires 0 <= i < |rows| => KeyOf(rows[i]))
  }

  // ---------------------------------------------------------------- the rows written

  function EventWrites(p: Projection, e: AgentEvent): seq<TimelineEntry> {
    if e.kind != KindTurn then RowsWritten(p.finals, e)
    else
      var id := TurnRowID(p, e);
      if id == "" then [] else [TurnRow(e, id)]
  }

  /** Every row written by the history, in order. */
  function Writes(sessionID: string, events: seq<AgentEvent>): seq<TimelineEntry>
    requires Replay(sessionID, events).Success?
  {
    if events == [] then []
    else
      var before, e := events[..|events| - 1], events[|events| - 1];
      Writes(sessionID, before) + EventWrites(Prepare(Replay(sessionID, before).value, e), e)
  }

  /** The keys written, each once, in the order of their first writes. */
  function FirstKeys(writes: seq<TimelineEntry>): seq<RowKey> {
    if writes == [] then []
    else
      var keys, last := FirstKeys(writes[..|writes| - 1]), KeyOf(writes[|writes| - 1]);
      if last in keys then keys else keys + [last]
  }

  /** The last non-blank text written to this field of this row. */
  function Latest(writes: seq<TimelineEntry>, key: RowKey, f: Field): string {
    if writes == [] then ""
    else
      var last := writes[|writes| - 1];
      if KeyOf(last) == key && TextOf(last, f) != "" then TextOf(last, f)
      else Latest(writes[..|writes| - 1], key, f)
  }

  /** The turn named by the last write of this row. */
  function LatestTurn(writes: seq<TimelineEntry>, key: RowKey): string {
    if writes == [] then ""
    else
      var last := writes[|writes| - 1];
      if KeyOf(last) == key then last.turnID else LatestTurn(writes[..|writes| - 1], key)
  }

  predicate ShowsLatest(row: TimelineEntry, writes: seq<TimelineEntry>) {
    && row.turnID == LatestTurn(writes, KeyOf(row))
    && forall f: Field :: TextOf(row, f) == Latest(writes, KeyOf(row), f)
  }

  ghost predicate Reads(rows: seq<TimelineEntry>, writes: seq<TimelineEntry>) {
    && UniqueRows(rows) && KeysOf(rows) == FirstKeys(writes)
    && forall i :: 0 <= i < |rows| ==> ShowsLatest(rows[i], writes)
  }

  // ---------------------------------------------------------------- one write

  lemma LatestSnoc(writes: seq<TimelineEntry>, row: TimelineEntry, key: RowKey, f: Field)
    ensures Latest(writes + [row], key, f)
         == if KeyOf(row) == key && TextOf(row, f) != "" then TextOf(row, f) else Latest(writes, key, f)
    ensures LatestTurn(writes + [row], key) == if KeyOf(row) == key then row.turnID else LatestTurn(writes, key)
    ensures FirstKeys(writes + [row])
         == if KeyOf(row) in FirstKeys(writes) then FirstKeys(writes) else FirstKeys(writes) + [KeyOf(row)]
  {
    assert (writes + [row])[..|writes|] == writes;
  }

  lemma {:induction false} UnwrittenIsBlank(writes: seq<TimelineEntry>, key: RowKey, f: Field)
    requires key !in FirstKeys(writes)
    ensures Latest(writes, key, f) == ""
  {
    if writes != [] {
      UnwrittenIsBlank(writes[..|writes| - 1], key, f);
    }
  }

  lemma MergedText(x: TimelineEntry, row: TimelineEntry, f: Field)
    ensures TextOf(Merge(x, row), f) == if TextOf(row, f) == "" then TextOf(x, f) else TextOf(row, f)
    ensures Merge(x, row).turnID == row.turnID && KeyOf(Merge(x, row)) == KeyOf(row)
  {
  }

  lemma MergedShowsLatest(writes: seq<TimelineEntry>, x: TimelineEntry, row: TimelineEntry)
    requires KeyOf(x) == KeyOf(row) && ShowsLatest(x, writes)
    ensures ShowsLatest(Merge(x, row), writes + [row])
  {
    forall f: Field ensures TextOf(Merge(x, row), f) == Latest(writes + [row], KeyOf(row), f) {
      MergedText(x, row, f);
      LatestSnoc(writes, row, KeyOf(row), f);
    }
    MergedText(x, row, Title);
    LatestSnoc(writes, row, KeyOf(row), Title);
  }

  lemma NewShowsLatest(writes: seq<TimelineEntry>, row: TimelineEntry)
    requires KeyOf(row) !in FirstKeys(writes)
    ensures ShowsLatest(row, writes + [row])
  {
    forall f: Field ensures TextOf(row, f) == Latest(writes + [row], KeyOf(row), f) {
      LatestSnoc(writes, row, KeyOf(row), f);
      UnwrittenIsBlank(writes, KeyOf(row), f);
    }
    LatestSnoc(writes, row, KeyOf(row), Title);
  }

  lemma OtherShowsLatest(writes: seq<TimelineEntry>, x: TimelineEntry, row: TimelineEntry)
    requires KeyOf(x) != KeyOf(row) && ShowsLatest(x, writes)
    ensures ShowsLatest(x, writes + [row])
  {
    forall f: Field ensures TextOf(x, f) == Latest(writes + [row], KeyOf(x), f) {
      LatestSnoc(writes, row, KeyOf(x), f);
    }
    LatestSnoc(writes, row, KeyOf(x), Title);
  }

  lemma KeyInRows(rows: seq<TimelineEntry>, row: TimelineEntry)
    ensures KeyOf(row) in KeysOf(rows) <==> RowIndex(rows, row.id, row.kind) < |rows|
  {
    var i := RowIndex(rows, row.id, row.kind);
    if i < |rows| {
      assert KeysOf(rows)[i] == KeyOf(row);
    }
  }

  lemma UpsertedKeys(rows: seq<TimelineEntry>, row: TimelineEntry)
    ensures KeysOf(Upsert(rows, row)) == if KeyOf(row) in KeysOf(rows) then KeysOf(rows) else KeysOf(rows) + [KeyOf(row)]
  {
    KeyInRows(rows, row);
    var i := RowIndex(rows, row.id, row.kind);
    if i < |rows| {
      MergedText(rows[i], row, Title);
    }
  }

  lemma UpsertReads(rows: seq<TimelineEntry>, writes: seq<TimelineEntry>, row: TimelineEntry)
    requires Reads(rows, writes)
    ensures Reads(Upsert(rows, row), writes + [row])
  {
    UpsertKeepsUnique(rows, row);
    UpsertedKeys(rows, row);
    KeyInRows(rows, row);
    LatestSnoc(writes, row, KeyOf(row), Title);
    var i := RowIndex(rows, row.id, row.kind);
    forall k | 0 <= k < |Upsert(rows, row)| ensures ShowsLatest(Upsert(rows, row)[k], writes + [row]) {
      if k == i < |rows| {
        MergedShowsLatest(writes, rows[i], row);
      } else if k < |rows| {
        OtherRow(rows, row, k);
        OtherShowsLatest(writes, rows[k], row);
      } else {
        NewShowsLatest(writes, row);
      }
    }
  }

  lemma OtherRow(rows: seq<TimelineEntry>, row: TimelineEntry, k: nat)
    requires UniqueRows(rows) && k < |rows| && k != RowIndex(rows, row.id, row.kind)
    ensures KeyOf(rows[k]) != KeyOf(row) && Upsert(rows, row)[k] == rows[k]
  {
  }

  // ---------------------------------------------------------------- a whole history

  lemma {:induction false} WriteAllReads(b: Board, writes: seq<TimelineEntry>, rows: seq<TimelineEntry>)
    requires Reads(b.timeline, writes)
    ensures Reads(WriteAll(b, rows).timeline, writes + rows)
    decreases |rows|
  {
    if rows == [] {
      assert writes + rows == writes;
    } else {
      UpsertReads(b.timeline, writes, rows[0]);
      WriteAllReads(Write(b, rows[0]), writes + [rows[0]], rows[1..]);
      assert writes + [rows[0]] + rows[1..] == writes + rows;
    }
  }

  lemma CompletedShows(row: TimelineEntry, e: AgentEvent, writes: seq<TimelineEntry>)
    requires ShowsLatest(row, writes)
    ensures ShowsLatest(CompleteRow(row, e), writes) && KeyOf(CompleteRow(row, e)) == KeyOf(row)
  {
    forall f: Field ensures TextOf(CompleteRow(row, e), f) == TextOf(row, f) {
    }
  }

  /** Completing the activity rows of a turn changes no key, turn or text. */
  lemma CompletedReads(rows: seq<TimelineEntry>, e: AgentEvent, writes: seq<TimelineEntry>)
    requires Reads(rows, writes)
    ensures Reads(CompleteRows(rows, e), writes)
  {
    forall i | 0 <= i < |rows| ensures ShowsLatest(CompleteRows(rows, e)[i], writes)
                               ensures KeyOf(CompleteRows(rows, e)[i]) == KeyOf(rows[i]) {
      CompletedShows(rows[i], e, writes);
    }
    assert KeysOf(CompleteRows(rows, e)) == KeysOf(rows);
  }

  lemma TurnReads(p: Projection, e: AgentEvent, writes: seq<TimelineEntry>)
    requires Reads(p.timeline, writes) && e.kind == KindTurn
    ensures Reads(ApplyTurn(p, e).timeline, writes + EventWrites(p, e))
  {
    TurnBoard(p, e);
    var rows := BoardOf(TurnLiveness(p, e)).timeline;
    if TerminalPhase(e.phase) && e.turnID != "" {
      CompletedReads(p.timeline, e, writes);
    }
    var id := TurnRowID(p, e);
    if id == "" {
      assert writes + [] == writes;
    } else {
      UpsertReads(rows, writes, TurnRow(e, id));
    }
  }

  lemma StepReads(p: Projection, e: AgentEvent, writes: seq<TimelineEntry>)
    requires Reads(p.timeline, writes)
    ensures Reads(Step(p, e).timeline, writes + EventWrites(Prepare(p, e), e))
  {
    var q := Prepare(p, e);
    PreparedRows(p, e);
    if e.kind == KindTurn {
      TurnReads(q, e, writes);
    } else {
      WriteAllReads(BoardOf(q), writes, RowsWritten(q.finals, e));
      ApplyBoard(q, e);
    }
  }

  /**
   After any history the timeline lists the written rows once each, in the order of their first
   writes; every row belongs to the turn of its last write and shows, field by field, the last
   non-blank text written to it.
   */
  lemma {:induction false} TimelineShowsLatest(sessionID: string, events: seq<AgentEvent>)
    requires Replay(sessionID, events).Success?
    ensures Reads(Replay(sessionID, events).value.timeline, Writes(sessionID, events))
  {
    if events != [] {
      var before, e := events[..|events| - 1], events[|events| - 1];
      SplitLast(events);
      ReplayStep(sessionID, before, e);
      TimelineShowsLatest(sessionID, before);
      StepReads(Replay(sessionID, before).value, e, Writes(sessionID, before));
    }
  }
}
