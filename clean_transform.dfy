/**
 * The table transformation of the raw-data cleaning script, on an in-memory
 * table: normalise the layout, drop duplicate messages (first kept), drop
 * rows with a missing message or category, strip both, drop empty messages,
 * drop invalid categories, and add the length and word-count columns.
 *
 * `CleanAndTransform` rebinds the frame step by step as the script does;
 * `Survivors` is an independent one-pass description of which rows come out,
 * and the two are proved equal.
 */
module CleanTransform {
  import opened Wrappers
  import opened Text
  import opened Table

  /** A row of the frame between the layout step and the text step. */
  datatype WorkRow = WorkRow(message: Cell, category: Cell)

  /** The `ValueError` for a table with neither layout, naming the columns it has. */
  datatype CleanError = UnexpectedColumns(found: set<string>)

  /** A row of the output frame. */
  datatype CleanRow = CleanRow(message: string, category: string, messageLength: nat, wordCount: nat)

  // ---------------------------------------------------------------------------
  // The steps

  /** Step 1: rename ('text', 'spam') and turn the flag into a class name; keep ('Message', 'Category'). */
  function NormalizeColumns(layout: Layout, rows: seq<Row>): (r: seq<WorkRow>)
    ensures |r| == |rows|
    ensures forall i :: 0 <= i < |rows| ==> r[i] == LayoutRow(layout, rows[i])
  {
    seq(|rows|, i requires 0 <= i < |rows| => LayoutRow(layout, rows[i]))
  }

  /** The Message and Category cells of a raw row; a missing flag becomes "ham", not NaN. */
  function LayoutRow(layout: Layout, row: Row): (r: WorkRow)
    ensures layout == TextSpam ==> r.category.Text? && (r.category.s == "spam" || r.category.s == "ham")
    ensures layout == MessageCategory ==> r == WorkRow(CellAt(row, "Message"), CellAt(row, "Category"))
  {
    match layout
    case TextSpam => WorkRow(CellAt(row, "text"), Text(CategoryFromFlag(CellAt(row, "spam"))))
    case MessageCategory => WorkRow(CellAt(row, "Message"), CellAt(row, "Category"))
  }

  /** Step 2: `drop_duplicates(subset=["Message"], keep="first")`, after the messages in `seen`. */
  function DropDuplicatesAfter(seen: set<Cell>, rows: seq<WorkRow>): (r: seq<WorkRow>)
    ensures |r| <= |rows|
    ensures forall i :: 0 <= i < |r| ==> r[i] in rows && r[i].message !in seen
    ensures forall i, j :: 0 <= i < j < |r| ==> r[i].message != r[j].message
    ensures forall k :: 0 <= k < |rows| && FirstOccurrence(rows, k) && rows[k].message !in seen ==> rows[k] in r
    decreases |rows|
  {
    if rows == [] then []
    else if rows[0].message in seen then
      var rest := DropDuplicatesAfter(seen, rows[1..]);
      DedupSkip(seen, rows, rest);
      rest
    else
      var rest := DropDuplicatesAfter(seen + {rows[0].message}, rows[1..]);
      DedupKeep(seen, rows, rest);
      [rows[0]] + rest
  }

  /** The contract of `DropDuplicatesAfter(seen, rows)`, for a candidate result `r`. */
  predicate DedupSpec(seen: set<Cell>, rows: seq<WorkRow>, r: seq<WorkRow>) {
    && |r| <= |rows|
    && (forall i :: 0 <= i < |r| ==> r[i] in rows && r[i].message !in seen)
    && (forall i, j :: 0 <= i < j < |r| ==> r[i].message != r[j].message)
    && (forall k :: 0 <= k < |rows| && FirstOccurrence(rows, k) && rows[k].message !in seen ==> rows[k] in r)
  }

  lemma DedupSkip(seen: set<Cell>, rows: seq<WorkRow>, rest: seq<WorkRow>)
    requires rows != [] && rows[0].message in seen
    requires DedupSpec(seen, rows[1..], rest)
    ensures DedupSpec(seen, rows, rest)
  {
    FirstOccurrenceTail(rows);
    assert forall x :: x in rows[1..] ==> x in rows;
    forall k | 0 <= k < |rows| && FirstOccurrence(rows, k) && rows[k].message !in seen
      ensures rows[k] in rest
    {
      assert rows[1..][k - 1] == rows[k];
    }
  }

  lemma DedupKeep(seen: set<Cell>, rows: seq<WorkRow>, rest: seq<WorkRow>)
    requires rows != [] && rows[0].message !in seen
    requires DedupSpec(seen + {rows[0].message}, rows[1..], rest)
    ensures DedupSpec(seen, rows, [rows[0]] + rest)
  {
    var r := [rows[0]] + rest;
    assert forall x :: x in rows[1..] ==> x in rows;
    assert forall i :: 1 <= i < |r| ==> r[i] == rest[i - 1];
    DedupKeepFirsts(seen, rows, rest);
  }

  lemma DedupKeepFirsts(seen: set<Cell>, rows: seq<WorkRow>, rest: seq<WorkRow>)
    requires rows != [] && rows[0].message !in seen
    requires forall k :: 0 <= k < |rows[1..]| && FirstOccurrence(rows[1..], k) && rows[1..][k].message !in seen + {rows[0].message} ==> rows[1..][k] in rest
    ensures forall k :: 0 <= k < |rows| && FirstOccurrence(rows, k) && rows[k].message !in seen ==> rows[k] in [rows[0]] + rest
  {
    FirstOccurrenceTail(rows);
    forall k | 0 <= k < |rows| && FirstOccurrence(rows, k) && rows[k].message !in seen
      ensures rows[k] in [rows[0]] + rest
    {
      if k > 0 {
        assert rows[1..][k - 1] == rows[k];
      }
    }
  }

  /** No earlier row of `rows` has the message of row `k`. */
  predicate FirstOccurrence(rows: seq<WorkRow>, k: int)
    requires 0 <= k < |rows|
  {
    forall j :: 0 <= j < k ==> rows[j].message != rows[k].message
  }

  lemma FirstOccurrenceTail(rows: seq<WorkRow>)
    requires rows != []
    ensures forall k :: 1 <= k < |rows| && FirstOccurrence(rows, k) ==>
      FirstOccurrence(rows[1..], k - 1) && rows[k].message != rows[0].message
  {
  }

  /**
   * `drop_duplicates(subset=["Message"], keep="first")`: every row kept is a
   * row of the input, no message is kept twice, and the first row with each
   * message is kept.
   */
  function DropDuplicates(rows: seq<WorkRow>): (r: seq<WorkRow>)
    ensures |r| <= |rows|
    ensures forall i :: 0 <= i < |r| ==> r[i] in rows
    ensures forall i, j :: 0 <= i < j < |r| ==> r[i].message != r[j].message
    ensures forall k :: 0 <= k < |rows| && FirstOccurrence(rows, k) ==> rows[k] in r
  {
    DropDuplicatesAfter({}, rows)
  }

  predicate Present(w: WorkRow) {
    w.message != Missing && w.category != Missing
  }

  /** Step 3: `dropna(subset=["Message", "Category"])`. */
  function DropMissing(rows: seq<WorkRow>): (r: seq<WorkRow>)
    ensures |r| <= |rows|
    ensures forall i :: 0 <= i < |r| ==> Present(r[i]) && r[i] in rows
    ensures forall i :: 0 <= i < |rows| && Present(rows[i]) ==> rows[i] in r
  {
    if rows == [] then []
    else if Present(rows[0]) then [rows[0]] + DropMissing(rows[1..])
    else DropMissing(rows[1..])
  }

  /** Step 4 on one row: strip the message; strip and lower-case the category. */
  function StripRow(w: WorkRow): LabeledText {
    LabeledText(Strip(CellText(w.message)), Lower(Strip(CellText(w.category))))
  }

  function StripRows(rows: seq<WorkRow>): (r: seq<LabeledText>)
    ensures |r| == |rows|
    ensures forall i :: 0 <= i < |rows| ==> r[i] == StripRow(rows[i])
  {
    if rows == [] then [] else [StripRow(rows[0])] + StripRows(rows[1..])
  }

  /** Step 5: drop rows whose stripped message is empty. */
  function DropEmpty(rows: seq<LabeledText>): (r: seq<LabeledText>)
    ensures |r| <= |rows|
    ensures forall i :: 0 <= i < |r| ==> r[i].message != [] && r[i] in rows
    ensures forall i :: 0 <= i < |rows| && rows[i].message != [] ==> rows[i] in r
  {
    if rows == [] then []
    else if rows[0].message != [] then [rows[0]] + DropEmpty(rows[1..])
    else DropEmpty(rows[1..])
  }

  predicate ValidCategory(category: string) {
    category == "spam" || category == "ham"
  }

  function CountInvalid(rows: seq<LabeledText>): nat {
    if rows == [] then 0
    else (if ValidCategory(rows[0].category) then 0 else 1) + CountInvalid(rows[1..])
  }

  /** Step 6: drop rows whose category is not "spam" or "ham". */
  function DropInvalid(rows: seq<LabeledText>): (r: seq<LabeledText>)
    ensures |r| <= |rows|
    ensures forall i :: 0 <= i < |r| ==> ValidCategory(r[i].category) && r[i] in rows
    ensures forall i :: 0 <= i < |rows| && ValidCategory(rows[i].category) ==> rows[i] in r
  {
    if rows == [] then []
    else if ValidCategory(rows[0].category) then [rows[0]] + DropInvalid(rows[1..])
    else DropInvalid(rows[1..])
  }

  /** The filter of step 6 runs only when an invalid category was counted; it is a no-op otherwise. */
  lemma {:induction false} DropInvalidWhenAllValid(rows: seq<LabeledText>)
    requires CountInvalid(rows) == 0
    ensures DropInvalid(rows) == rows
  {
    if rows != [] {
      DropInvalidWhenAllValid(rows[1..]);
    }
  }

  /** Step 7 on one row: `message_length` and `word_count`. */
  function AddMetadataRow(t: LabeledText): (r: CleanRow)
    ensures r.message == t.message && r.category == t.category
    ensures r.messageLength == |t.message| && r.wordCount == WordCount(t.message)
  {
    CleanRow(t.message, t.category, |t.message|, WordCount(t.message))
  }

  function AddMetadata(rows: seq<LabeledText>): (r: seq<CleanRow>)
    ensures |r| == |rows|
    ensures forall i :: 0 <= i < |rows| ==> r[i] == AddMetadataRow(rows[i])
  {
    if rows == [] then [] else [AddMetadataRow(rows[0])] + AddMetadata(rows[1..])
  }

  // ---------------------------------------------------------------------------
  // The script's sequence of rebindings

  /**
   * `clean_and_transform` without the file reads and writes.  An unknown
   * layout raises before any row is looked at.
   */
  method CleanAndTransform(table: RawTable) returns (r: Result<seq<CleanRow>, CleanError>)
    ensures r.Err? <==> DetectLayout(table.columns).None?
    ensures r.Err? ==> r.error == UnexpectedColumns(table.columns)
    ensures r.Ok? ==> r.value == Survivors(NormalizeColumns(DetectLayout(table.columns).value, table.rows))
    ensures r.Ok? ==> forall i :: 0 <= i < |r.value| ==> WellFormed(r.value[i])
  {
    var layout := DetectLayout(table.columns);
    if layout.None? {
      return Err(UnexpectedColumns(table.columns));
    }
    var df := NormalizeColumns(layout.value, table.rows);
    ghost var normalized := df;
    df := DropDuplicates(df);
    df := DropMissing(df);
    var texts := StripRows(df);
    texts := DropEmpty(texts);
    var invalidCount := CountInvalid(texts);
    if invalidCount > 0 {
      texts := DropInvalid(texts);
    } else {
      DropInvalidWhenAllValid(texts);
    }
    var out := AddMetadata(texts);
    StepsMatchSurvivors({}, normalized);
    SurvivorsWellFormed({}, normalized);
    r := Ok(out);
  }

  // ---------------------------------------------------------------------------
  // One-pass reference

  /** A row, once stripped, passes steps 3, 5 and 6. */
  predicate Survives(w: WorkRow) {
    Present(w) && StripRow(w).message != [] && ValidCategory(StripRow(w).category)
  }

  /**
   * The rows that come out, given the messages `seen` earlier: a row is kept
   * when its message is new and it survives the later filters; its message
   * counts as seen either way, because deduplication runs first.
   */
  function SurvivorsAfter(seen: set<Cell>, rows: seq<WorkRow>): seq<CleanRow>
    decreases |rows|
  {
    if rows == [] then []
    else
      var w := rows[0];
      var rest := SurvivorsAfter(seen + {w.message}, rows[1..]);
      if w.message !in seen && Survives(w) then [AddMetadataRow(StripRow(w))] + rest else rest
  }

  function Survivors(rows: seq<WorkRow>): seq<CleanRow> {
    SurvivorsAfter({}, rows)
  }

  /** The output record of the script: stripped, non-empty, classified, with consistent metadata. */
  predicate WellFormed(c: CleanRow) {
    && c.message != [] && !IsSpace(c.message[0]) && !IsSpace(c.message[|c.message| - 1])
    && ValidCategory(c.category)
    && c.messageLength == |c.message|
    && c.wordCount == WordCount(c.message)
  }

  /** The filters after deduplication, as the script applies them. */
  function AfterDedup(rows: seq<WorkRow>): seq<CleanRow> {
    AddMetadata(DropInvalid(DropEmpty(StripRows(DropMissing(rows)))))
  }

  lemma DropMissingCons(w: WorkRow, rows: seq<WorkRow>)
    ensures DropMissing([w] + rows) == if Present(w) then [w] + DropMissing(rows) else DropMissing(rows)
  {
    assert ([w] + rows)[0] == w && ([w] + rows)[1..] == rows;
  }

  lemma DropEmptyCons(t: LabeledText, rows: seq<LabeledText>)
    ensures DropEmpty([t] + rows) == if t.message != [] then [t] + DropEmpty(rows) else DropEmpty(rows)
  {
    assert ([t] + rows)[0] == t && ([t] + rows)[1..] == rows;
  }

  lemma DropInvalidCons(t: LabeledText, rows: seq<LabeledText>)
    ensures DropInvalid([t] + rows) == if ValidCategory(t.category) then [t] + DropInvalid(rows) else DropInvalid(rows)
  {
    assert ([t] + rows)[0] == t && ([t] + rows)[1..] == rows;
  }

  lemma StripRowsCons(w: WorkRow, rows: seq<WorkRow>)
    ensures StripRows([w] + rows) == [StripRow(w)] + StripRows(rows)
  {
    assert ([w] + rows)[0] == w && ([w] + rows)[1..] == rows;
  }

  lemma AddMetadataCons(t: LabeledText, rows: seq<LabeledText>)
    ensures AddMetadata([t] + rows) == [AddMetadataRow(t)] + AddMetadata(rows)
  {
    assert ([t] + rows)[0] == t && ([t] + rows)[1..] == rows;
  }

  /** The filters after stripping take one row at a time. */
  lemma AfterStripCons(t: LabeledText, rows: seq<LabeledText>)
    ensures AddMetadata(DropInvalid(DropEmpty([t] + rows)))
         == (if t.message != [] && ValidCategory(t.category) then [AddMetadataRow(t)] else [])
            + AddMetadata(DropInvalid(DropEmpty(rows)))
  {
    var after := AddMetadata(DropInvalid(DropEmpty(rows)));
    DropEmptyCons(t, rows);
    if t.message != [] {
      var e := DropEmpty(rows);
      DropInvalidCons(t, e);
      if ValidCategory(t.category) {
        AddMetadataCons(t, DropInvalid(e));
      } else {
        assert [] + after == after;
      }
    } else {
      assert [] + after == after;
    }
  }

  /** The filters after deduplication take one row at a time. */
  lemma AfterDedupCons(w: WorkRow, rows: seq<WorkRow>)
    ensures AfterDedup([w] + rows) == (if Survives(w) then [AddMetadataRow(StripRow(w))] else []) + AfterDedup(rows)
  {
    var m := DropMissing(rows);
    DropMissingCons(w, rows);
    if Present(w) {
      StripRowsCons(w, m);
      AfterStripCons(StripRow(w), StripRows(m));
    } else {
      assert [] + AfterDedup(rows) == AfterDedup(rows);
    }
  }

  /** Deduplicating and then filtering produces exactly the one-pass survivors. */
  lemma {:induction false} StepsMatchSurvivors(seen: set<Cell>, rows: seq<WorkRow>)
    ensures AfterDedup(DropDuplicatesAfter(seen, rows)) == SurvivorsAfter(seen, rows)
    decreases |rows|
  {
    if rows == [] {
    } else {
      var w := rows[0];
      if w.message in seen {
        assert seen + {w.message} == seen;
        StepsMatchSurvivors(seen, rows[1..]);
      } else {
        StepsMatchSurvivors(seen + {w.message}, rows[1..]);
        AfterDedupCons(w, DropDuplicatesAfter(seen + {w.message}, rows[1..]));
      }
    }
  }

  lemma {:induction false} SurvivorsWellFormed(seen: set<Cell>, rows: seq<WorkRow>)
    ensures forall i :: 0 <= i < |SurvivorsAfter(seen, rows)| ==> WellFormed(SurvivorsAfter(seen, rows)[i])
    decreases |rows|
  {
    if rows != [] {
      var w := rows[0];
      var rest := SurvivorsAfter(seen + {w.message}, rows[1..]);
      SurvivorsWellFormed(seen + {w.message}, rows[1..]);
      if w.message !in seen && Survives(w) {
        var c := AddMetadataRow(StripRow(w));
        KeptWellFormed(w);
        var out := [c] + rest;
        assert SurvivorsAfter(seen, rows) == out;
        forall i | 0 <= i < |out| ensures WellFormed(out[i]) {
          if i > 0 {
            assert out[i] == rest[i - 1];
          }
        }
      } else {
        assert SurvivorsAfter(seen, rows) == rest;
      }
    }
  }

  /** A surviving row comes out well formed. */
  lemma KeptWellFormed(w: WorkRow)
    requires Survives(w)
    ensures WellFormed(AddMetadataRow(StripRow(w)))
  {
    MetadataWellFormed(StripRow(w), CellText(w.message));
  }

  lemma MetadataWellFormed(t: LabeledText, raw: string)
    requires t.message == Strip(raw) && t.message != []
    requires ValidCategory(t.category)
    ensures WellFormed(AddMetadataRow(t))
  {
  }

  // ---------------------------------------------------------------------------
  // Consequences

  /** What one row contributes when its message has not been seen. */
  function Kept(w: WorkRow): seq<CleanRow> {
    if Survives(w) then [AddMetadataRow(StripRow(w))] else []
  }

  /**
   * Deduplication compares raw cells: of two rows with different raw
   * messages, each is kept or dropped on its own merits, in order.
   */
  lemma DistinctRawMessagesBothKept(w1: WorkRow, w2: WorkRow)
    requires w1.message != w2.message
    ensures SurvivorsAfter({}, [w1] + [w2]) == Kept(w1) + Kept(w2)
  {
    var tail := SurvivorsAfter({w1.message}, [w2]);
    assert tail == Kept(w2) by {
      SurvivorsCons({w1.message}, w2, []);
      assert [w2] + [] == [w2];
      assert SurvivorsAfter({w1.message} + {w2.message}, []) == [];
    }
    SurvivorsCons({}, w1, [w2]);
    assert {} + {w1.message} == {w1.message};
  }

  lemma SurvivorsCons(seen: set<Cell>, w: WorkRow, rows: seq<WorkRow>)
    ensures SurvivorsAfter(seen, [w] + rows)
         == (if w.message !in seen then Kept(w) else []) + SurvivorsAfter(seen + {w.message}, rows)
  {
    assert ([w] + rows)[0] == w && ([w] + rows)[1..] == rows;
  }

  /** "hi" and " hi" are different raw messages with the same stripped text. */
  lemma PaddedMessagesStripAlike()
    ensures Strip(" hi") == Strip("hi") == "hi"
  {
    StripNoEdgeSpace("hi");
    assert TrimStart(" hi") == TrimStart("hi") by {
      assert " hi"[1..] == "hi";
    }
  }

  /** In the ('text', 'spam') layout a missing flag reads as "ham", so the row is not dropped as missing. */
  lemma MissingFlagIsHam(row: Row)
    requires "spam" !in row
    ensures LayoutRow(TextSpam, row).category == Text("ham")
  {
  }
}
