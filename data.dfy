/**
 * The record shaping of data.py that sits in front of the file and spreadsheet
 * writes: initial probabilities merged into the round rows, questionnaire rows
 * normalised against the fixed header, and the column union used when rows are
 * appended to a sheet that already holds some.
 */
module Data {
  import opened Common
  import opened Experiments

  const QUESTIONNAIRE_HEADER: seq<string> := [
    "session_id", "participant_id", "professional_area", "phase",
    "reason", "pattern", "stress", "confidence", "perceived_control", "strategy",
    "overall_stress", "overall_confidence", "phase_preference", "final_strategy", "comments"
  ]

  const RESULTS_COLUMNS: seq<string> := [
    "session_id", "participant_id", "professional_area", "phase", "round", "box_chosen", "decision_time",
    "result", "reward", "cumulative_earnings", "p_safe", "p_uncertain",
    "init_p_safe", "init_p_uncertain"
  ]

  /** A data frame: column labels and one list of cells per row. */
  datatype Frame = Frame(columns: seq<string>, rows: seq<seq<Value>>)
  {
    predicate Rectangular()
    {
      forall i :: 0 <= i < |rows| ==> |rows[i]| == |columns|
    }

    /** A frame is empty when it has no rows or no columns. */
    predicate IsEmpty()
    {
      |columns| == 0 || |rows| == 0
    }
  }

  predicate Distinct(s: seq<string>)
  {
    forall i, j :: 0 <= i < j < |s| ==> s[i] != s[j]
  }

  // ---------------------------------------------------------------------
  // save_round_data

  /** The phase a cell names when used as a key of the phase dict: an integer, or a number equal to one. */
  function PhaseKeyOf(v: Value): Option<int>
  {
    match v
    case Int(i) => Some(i)
    case Num(x) => if x.Floor as real == x then Some(x.Floor) else None
    case _ => None
  }

  /** An `initial_probs` argument that is not a dict counts as an empty one. */
  function InitMapOf(initialProbs: Option<map<int, Probs>>): map<int, Probs>
  {
    match initialProbs
    case Some(m) => m
    case None => map[]
  }

  /**
   * The two cells appended to `row`: the initial probabilities of the phase
   * named in column `phaseColumn`, or None twice when the row is too short or
   * that phase has no entry.
   */
  function InitCells(initMap: map<int, Probs>, row: seq<Value>, phaseColumn: nat): seq<Value>
  {
    if phaseColumn < |row| && PhaseKeyOf(row[phaseColumn]).Some? && PhaseKeyOf(row[phaseColumn]).value in initMap then
      var probs := initMap[PhaseKeyOf(row[phaseColumn]).value];
      [Num(probs.pSafe), Num(probs.pUncertain)]
    else
      [Missing, Missing]
  }

  /** Which initial probabilities a row receives, case by case. */
  lemma InitCellsLookup(initMap: map<int, Probs>, row: seq<Value>, phaseColumn: nat)
    ensures |InitCells(initMap, row, phaseColumn)| == 2
    ensures phaseColumn < |row| && row[phaseColumn].Int? && row[phaseColumn].i in initMap ==>
      InitCells(initMap, row, phaseColumn)
        == [Num(initMap[row[phaseColumn].i].pSafe), Num(initMap[row[phaseColumn].i].pUncertain)]
    ensures phaseColumn >= |row| ==> InitCells(initMap, row, phaseColumn) == [Missing, Missing]
    ensures phaseColumn < |row| && (row[phaseColumn].Text? || row[phaseColumn].Missing?) ==>
      InitCells(initMap, row, phaseColumn) == [Missing, Missing]
  {
  }

  /** Appends to every row the initial probabilities of the phase in column `phaseColumn`, keeping the rows' order. */
  method MergeInitProbs(data: seq<seq<Value>>, initMap: map<int, Probs>, phaseColumn: nat) returns (rows: seq<seq<Value>>)
    ensures |rows| == |data|
    ensures forall i :: 0 <= i < |data| ==> rows[i] == data[i] + InitCells(initMap, data[i], phaseColumn)
  {
    rows := [];
    var i := 0;
    while i < |data|
      invariant 0 <= i <= |data|
      invariant |rows| == i
      invariant forall k :: 0 <= k < i ==> rows[k] == data[k] + InitCells(initMap, data[k], phaseColumn)
    {
      rows := rows + [data[i] + InitCells(initMap, data[i], phaseColumn)];
      i := i + 1;
    }
  }

  /** The column `save_round_data` reads the phase from. */
  const AS_WRITTEN_PHASE_COLUMN: nat := 2

  /** The column the round rows actually hold the phase in. */
  const PHASE_COLUMN: nat := 3

  /** `save_round_data` as written: the phase is looked up in column 2. */
  method SaveRoundData(data: seq<seq<Value>>, participantId: Value, initialProbs: Option<map<int, Probs>>)
    returns (r: Result<Frame>)
    ensures r.Err? <==> |data| == 0 || Falsy(participantId)
    ensures r.Err? ==> r.error == ValueError
    ensures r.Ok? ==>
      && r.value.columns == RESULTS_COLUMNS
      && |r.value.rows| == |data|
      && forall i :: 0 <= i < |data| ==>
           r.value.rows[i] == data[i] + InitCells(InitMapOf(initialProbs), data[i], AS_WRITTEN_PHASE_COLUMN)
  {
    if |data| == 0 || Falsy(participantId) {
      return Err(ValueError);
    }
    var rows := MergeInitProbs(data, InitMapOf(initialProbs), AS_WRITTEN_PHASE_COLUMN);
    r := Ok(Frame(RESULTS_COLUMNS, rows));
  }

  /** `save_round_data` with the lookup on the phase column. */
  method SaveRoundDataByPhase(data: seq<seq<Value>>, participantId: Value, initialProbs: Option<map<int, Probs>>)
    returns (r: Result<Frame>)
    ensures r.Err? <==> |data| == 0 || Falsy(participantId)
    ensures r.Err? ==> r.error == ValueError
    ensures r.Ok? ==>
      && r.value.columns == RESULTS_COLUMNS
      && |r.value.rows| == |data|
      && forall i :: 0 <= i < |data| ==>
           r.value.rows[i] == data[i] + InitCells(InitMapOf(initialProbs), data[i], PHASE_COLUMN)
  {
    if |data| == 0 || Falsy(participantId) {
      return Err(ValueError);
    }
    var rows := MergeInitProbs(data, InitMapOf(initialProbs), PHASE_COLUMN);
    r := Ok(Frame(RESULTS_COLUMNS, rows));
  }

  // ---------------------------------------------------------------------
  // save_questionnaire

  /** The third argument: a list of entries (batch mode) or one dict of responses. */
  datatype Responses = Entries(entries: seq<map<string, Value>>) | Fields(fields: map<string, Value>)

  predicate NoResponses(responses: Responses)
  {
    match responses
    case Entries(entries) => |entries| == 0
    case Fields(fields) => |fields| == 0
  }

  /** A row dict with every header column set to the empty string. */
  function BlankRow(): (r: map<string, Value>)
    ensures forall col :: col in r <==> col in QUESTIONNAIRE_HEADER
  {
    map col | col in QUESTIONNAIRE_HEADER :: Text("")
  }

  /** The row dict's values, in header order. */
  function RowValues(rowDict: map<string, Value>): (r: seq<Value>)
    requires forall col :: col in QUESTIONNAIRE_HEADER ==> col in rowDict
    ensures |r| == |QUESTIONNAIRE_HEADER|
    ensures forall j :: 0 <= j < |r| ==> r[j] == rowDict[QUESTIONNAIRE_HEADER[j]]
  {
    seq(|QUESTIONNAIRE_HEADER|, j requires 0 <= j < |QUESTIONNAIRE_HEADER| => rowDict[QUESTIONNAIRE_HEADER[j]])
  }

  /** Copies into `rowDict` every field of `entry` whose key is a header column, one key at a time. */
  method CopyHeaderFields(rowDict: map<string, Value>, entry: map<string, Value>) returns (filled: map<string, Value>)
    requires forall col :: col in rowDict <==> col in QUESTIONNAIRE_HEADER
    ensures filled.Keys == rowDict.Keys
    ensures forall col :: col in filled ==> filled[col] == if col in entry then entry[col] else rowDict[col]
  {
    filled := rowDict;
    var pending := entry.Keys;
    while pending != {}
      invariant pending <= entry.Keys
      invariant filled.Keys == rowDict.Keys
      invariant forall col :: col in filled ==>
        filled[col] == if col in entry && col !in pending then entry[col] else rowDict[col]
      decreases pending
    {
      var k :| k in pending;
      if k in QUESTIONNAIRE_HEADER {
        filled := filled[k := entry[k]];
      }
      pending := pending - {k};
    }
  }

  /** A batch row's cell: the entry's own value, else the participant id argument for that column, else blank. */
  function BatchCell(entry: map<string, Value>, participantId: Value, col: string): Value
  {
    if col in entry then entry[col]
    else if col == "participant_id" then participantId
    else Text("")
  }

  /** A single-entry row's cell: a response with the column's name wins over the id and phase arguments. */
  function SingleCell(fields: map<string, Value>, participantId: Value, phase: Value, col: string): Value
  {
    if col in fields then fields[col]
    else if col == "participant_id" then participantId
    else if col == "phase" then phase
    else Text("")
  }

  /** One row per entry, each holding exactly the header columns. */
  method BatchRows(participantId: Value, entries: seq<map<string, Value>>) returns (rows: seq<seq<Value>>)
    ensures |rows| == |entries|
    ensures forall i :: 0 <= i < |rows| ==> |rows[i]| == |QUESTIONNAIRE_HEADER|
    ensures forall i, j :: 0 <= i < |rows| && 0 <= j < |QUESTIONNAIRE_HEADER| ==>
      rows[i][j] == BatchCell(entries[i], participantId, QUESTIONNAIRE_HEADER[j])
  {
    rows := [];
    var i := 0;
    while i < |entries|
      invariant 0 <= i <= |entries|
      invariant |rows| == i
      invariant forall k :: 0 <= k < i ==> |rows[k]| == |QUESTIONNAIRE_HEADER|
      invariant forall k, j :: 0 <= k < i && 0 <= j < |QUESTIONNAIRE_HEADER| ==>
        rows[k][j] == BatchCell(entries[k], participantId, QUESTIONNAIRE_HEADER[j])
    {
      var entry := entries[i];
      var rowDict := BlankRow();
      rowDict := rowDict["participant_id" := if "participant_id" in entry then entry["participant_id"] else participantId];
      rowDict := rowDict["phase" := if "phase" in entry then entry["phase"] else Text("")];
      rowDict := CopyHeaderFields(rowDict, entry);
      var row := RowValues(rowDict);
      assert forall j :: 0 <= j < |QUESTIONNAIRE_HEADER| ==>
        row[j] == BatchCell(entry, participantId, QUESTIONNAIRE_HEADER[j]);
      rows := rows + [row];
      i := i + 1;
    }
  }

  /** The one row of single-entry mode. */
  method SingleRow(participantId: Value, phase: Value, fields: map<string, Value>) returns (row: seq<Value>)
    ensures |row| == |QUESTIONNAIRE_HEADER|
    ensures forall j :: 0 <= j < |QUESTIONNAIRE_HEADER| ==>
      row[j] == SingleCell(fields, participantId, phase, QUESTIONNAIRE_HEADER[j])
  {
    var rowDict := BlankRow();
    rowDict := rowDict["participant_id" := participantId];
    rowDict := rowDict["phase" := phase];
    rowDict := CopyHeaderFields(rowDict, fields);
    row := RowValues(rowDict);
  }

  /**
   * `save_questionnaire`: a falsy id or no responses raise ValueError; the
   * phase 'batch' with a list builds one row per entry; a dict builds one row;
   * a list under any other phase fails on `.items()`.
   */
  method SaveQuestionnaire(participantId: Value, phase: Value, responses: Responses) returns (r: Result<Frame>)
    ensures (Falsy(participantId) || NoResponses(responses)) ==> r == Err(ValueError)
    ensures !Falsy(participantId) && !NoResponses(responses) && responses.Entries? && phase != Text("batch") ==>
      r == Err(AttributeError)
    ensures !Falsy(participantId) && !NoResponses(responses) && (responses.Fields? || phase == Text("batch")) ==>
      r.Ok? && r.value.columns == QUESTIONNAIRE_HEADER && r.value.Rectangular()
    ensures r.Ok? && responses.Entries? ==>
      && |r.value.rows| == |responses.entries|
      && forall i, j :: 0 <= i < |r.value.rows| && 0 <= j < |QUESTIONNAIRE_HEADER| ==>
           r.value.rows[i][j] == BatchCell(responses.entries[i], participantId, QUESTIONNAIRE_HEADER[j])
    ensures r.Ok? && responses.Fields? ==>
      && |r.value.rows| == 1
      && forall j :: 0 <= j < |QUESTIONNAIRE_HEADER| ==>
           r.value.rows[0][j] == SingleCell(responses.fields, participantId, phase, QUESTIONNAIRE_HEADER[j])
  {
    if Falsy(participantId) || NoResponses(responses) {
      return Err(ValueError);
    }
    if phase == Text("batch") && responses.Entries? {
      var rows := BatchRows(participantId, responses.entries);
      r := Ok(Frame(QUESTIONNAIRE_HEADER, rows));
    } else if responses.Fields? {
      var row := SingleRow(participantId, phase, responses.fields);
      r := Ok(Frame(QUESTIONNAIRE_HEADER, [row]));
    } else {
      r := Err(AttributeError);
    }
  }

  /** What a batch row holds, column by column. */
  lemma BatchCellMeaning(entry: map<string, Value>, participantId: Value, col: string)
    ensures col in entry ==> BatchCell(entry, participantId, col) == entry[col]
    ensures col !in entry && col == "participant_id" ==> BatchCell(entry, participantId, col) == participantId
    ensures col !in entry && col != "participant_id" ==> BatchCell(entry, participantId, col) == Text("")
  {
  }

  // ---------------------------------------------------------------------
  // append_dataframe_to_sheet: the column union

  /** `[c for c in cols if c not in seen]` */
  function Unseen(cols: seq<string>, seen: seq<string>): seq<string>
  {
    if cols == [] then []
    else (if cols[0] in seen then [] else [cols[0]]) + Unseen(cols[1..], seen)
  }

  lemma {:induction false} UnseenMembers(cols: seq<string>, seen: seq<string>)
    ensures forall c :: c in Unseen(cols, seen) <==> c in cols && c !in seen
  {
    if cols != [] {
      UnseenMembers(cols[1..], seen);
      assert cols == [cols[0]] + cols[1..];
    }
  }

  lemma {:induction false} UnseenDistinct(cols: seq<string>, seen: seq<string>)
    requires Distinct(cols)
    ensures Distinct(Unseen(cols, seen))
  {
    if cols != [] {
      UnseenDistinct(cols[1..], seen);
      UnseenMembers(cols[1..], seen);
      assert cols[0] !in cols[1..] by {
        forall k | 0 <= k < |cols[1..]| ensures cols[1..][k] != cols[0] {
          assert cols[1..][k] == cols[k + 1];
        }
      }
    }
  }

  /** The columns of the combined frame: the existing ones in order, then the unseen new ones; or the new ones alone. */
  function UnifiedColumns(existing: Frame, incoming: seq<string>): seq<string>
  {
    var existingCols := if existing.IsEmpty() then [] else existing.columns;
    if existingCols != [] then existingCols + Unseen(incoming, existingCols) else incoming
  }

  lemma UnifiedColumnsSpec(existing: Frame, incoming: seq<string>)
    ensures existing.IsEmpty() ==> UnifiedColumns(existing, incoming) == incoming
    ensures !existing.IsEmpty() ==>
      && UnifiedColumns(existing, incoming)[..|existing.columns|] == existing.columns
      && UnifiedColumns(existing, incoming)[|existing.columns|..] == Unseen(incoming, existing.columns)
    ensures forall c :: c in UnifiedColumns(existing, incoming) <==>
      c in incoming || (!existing.IsEmpty() && c in existing.columns)
    ensures (existing.IsEmpty() || Distinct(existing.columns)) && Distinct(incoming) ==>
      Distinct(UnifiedColumns(existing, incoming))
  {
    UnseenMembers(incoming, existing.columns);
    if !existing.IsEmpty() && Distinct(existing.columns) && Distinct(incoming) {
      UnseenDistinct(incoming, existing.columns);
      var u := UnifiedColumns(existing, incoming);
      var n := |existing.columns|;
      forall i, j | 0 <= i < j < |u| ensures u[i] != u[j] {
        if j >= n && i < n {
          assert u[j] in Unseen(incoming, existing.columns) by {
            assert u[j] == Unseen(incoming, existing.columns)[j - n];
          }
          assert u[i] == existing.columns[i];
        } else if i >= n {
          assert u[i] == Unseen(incoming, existing.columns)[i - n];
          assert u[j] == Unseen(incoming, existing.columns)[j - n];
        }
      }
    }
  }

  /** The first position of `c` in `cols`. */
  function IndexOf(cols: seq<string>, c: string): (k: nat)
    requires c in cols
    ensures k < |cols| && cols[k] == c
  {
    if cols[0] == c then 0 else 1 + IndexOf(cols[1..], c)
  }

  /** The cell of row `i` under column `c`, filled with the empty string where the frame lacks `c`. */
  function CellOf(f: Frame, i: nat, c: string): Value
    requires f.Rectangular() && i < |f.rows|
  {
    if c in f.columns then f.rows[i][IndexOf(f.columns, c)] else Text("")
  }

  /** `reindex(columns=cols, fill_value="")` */
  function Reindex(f: Frame, cols: seq<string>): seq<seq<Value>>
    requires f.Rectangular()
  {
    seq(|f.rows|, i requires 0 <= i < |f.rows| =>
      seq(|cols|, j requires 0 <= j < |cols| => CellOf(f, i, cols[j])))
  }

  /**
   * The frame written back to the sheet: the rows already there (none if the
   * sheet read back empty or not as a frame) followed by the new rows, both
   * aligned to the unified columns.
   */
  function Append(existing: Option<Frame>, df: Frame): Frame
    requires existing.Some? ==> existing.value.Rectangular()
    requires df.Rectangular()
  {
    var before := match existing case Some(f) => f case None => Frame([], []);
    var cols := UnifiedColumns(before, df.columns);
    var existingAligned := if before.IsEmpty() then [] else Reindex(before, cols);
    Frame(cols, existingAligned + Reindex(df, cols))
  }

  lemma AppendSpec(existing: Option<Frame>, df: Frame)
    requires existing.Some? ==> existing.value.Rectangular()
    requires df.Rectangular()
    ensures var combined := Append(existing, df);
      var kept := if existing.None? || existing.value.IsEmpty() then 0 else |existing.value.rows|;
      && combined.Rectangular()
      && |combined.rows| == kept + |df.rows|
      && (forall i, j :: 0 <= i < kept && 0 <= j < |combined.columns| ==>
            combined.rows[i][j] == CellOf(existing.value, i, combined.columns[j]))
      && (forall i, j :: 0 <= i < |df.rows| && 0 <= j < |combined.columns| ==>
            combined.rows[kept + i][j] == CellOf(df, i, combined.columns[j]))
  {
  }
}
