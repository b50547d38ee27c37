/**
 * src/penguin_classifier/dataset.py: reading the seed dataset, cleaning it,
 * splitting features from the target, the append-only prediction log and the
 * combined history view.
 */
module Dataset {
  import opened Wrappers
  import opened Errors
  import opened Config
  import opened Frames

  /** A CSV file on disk: absent, or present with the frame that reading it yields. */
  datatype CsvFile = NoFile | Present(frame: Frame)

  predicate ReadableFile(file: CsvFile)
  {
    file.Present? ==> WellFormed(file.frame)
  }

  /** `load_data`: the file's frame, or FileNotFoundError("No data found at <path>"). */
  function LoadData(file: CsvFile, path: string): (r: Result<Frame, Error>)
    ensures r.Err? <==> file.NoFile?
    ensures r.Err? ==> r.error == FileNotFound(path) && Describe(r.error) == "No data found at " + path
    ensures r.Ok? ==> r.value == file.frame
  {
    if file.NoFile? then Err(FileNotFound(path)) else Ok(file.frame)
  }

  // ---------------------------------------------------------------- cleaning

  /** The columns a row must have a value in to survive cleaning. */
  const CLEANING_SUBSET: seq<string> := NUMERICAL_FEATURES + ["species"]

  predicate HasCleaningColumns(df: Frame)
  {
    forall c :: c in CLEANING_SUBSET ==> c in df.columns
  }

  /**
   * `clean_data`: drop the rows missing a numeric feature or the species, then
   * drop the `year` column. Both pandas steps raise KeyError on an absent column.
   */
  function CleanData(df: Frame): (r: Result<Frame, Error>)
    requires WellFormed(df)
    ensures r.Ok? <==> HasCleaningColumns(df) && "year" in df.columns
    ensures r.Err? && !HasCleaningColumns(df) ==> r.error == KeyError(MissingFrom(CLEANING_SUBSET, df.columns))
    ensures r.Err? && HasCleaningColumns(df) ==> r.error == KeyError(["year"])
    ensures r.Ok? ==> WellFormed(r.value) && r.value.columns == Without(df.columns, "year")
    ensures r.Ok? ==> "year" !in r.value.columns && |r.value.rows| <= |df.rows|
    ensures r.Ok? ==> forall o :: o in r.value.rows ==> "year" !in o && Complete(o, CLEANING_SUBSET)
  {
    var missing := MissingFrom(CLEANING_SUBSET, df.columns);
    if missing != [] then
      assert missing[0] in CLEANING_SUBSET && missing[0] !in df.columns;
      Err(KeyError(missing))
    else if "year" !in df.columns then Err(KeyError(["year"]))
    else
      var kept := KeepComplete(df.rows, CLEANING_SUBSET);
      assert forall r :: r in kept ==> r.Keys == ColumnSet(df.columns);
      var out := DropColumn(Frame(df.columns, kept), "year").value;
      YearIsNotCleaned();
      assert forall o :: o in out.rows ==> "year" !in o && Complete(o, CLEANING_SUBSET) by {
        forall o | o in out.rows ensures "year" !in o && Complete(o, CLEANING_SUBSET) {
          var i :| 0 <= i < |out.rows| && out.rows[i] == o;
          assert kept[i] in kept;
          CompleteWithout(kept[i], CLEANING_SUBSET, "year");
        }
      }
      Ok(out)
  }

  lemma YearIsNotCleaned()
    ensures "year" !in CLEANING_SUBSET
  {
  }

  /**
   * Cleaning keeps exactly the complete rows: every input row with all of
   * CLEANING_SUBSET present reappears without its year, and every output row is
   * such a row. Rows missing only island, sex or year therefore survive.
   */
  lemma CleanDataKeepsExactlyCompleteRows(df: Frame, out: Frame)
    requires WellFormed(df) && CleanData(df) == Ok(out)
    ensures forall r :: r in df.rows && Complete(r, CLEANING_SUBSET) ==> r - {"year"} in out.rows
    ensures forall o :: o in out.rows ==> exists r :: r in df.rows && Complete(r, CLEANING_SUBSET) && o == r - {"year"}
  {
    var kept := KeepComplete(df.rows, CLEANING_SUBSET);
    assert out.rows == seq(|kept|, i requires 0 <= i < |kept| => kept[i] - {"year"});
    forall r | r in df.rows && Complete(r, CLEANING_SUBSET) ensures r - {"year"} in out.rows {
      var i :| 0 <= i < |kept| && kept[i] == r;
      assert out.rows[i] == r - {"year"};
    }
    forall o | o in out.rows
      ensures exists r :: r in df.rows && Complete(r, CLEANING_SUBSET) && o == r - {"year"}
    {
      var i :| 0 <= i < |out.rows| && out.rows[i] == o;
      assert kept[i] in kept;
    }
  }

  /** Cleaning respects row concatenation: the surviving rows keep their relative order. */
  lemma CleanDataAppend(columns: seq<string>, a: seq<Row>, b: seq<Row>)
    requires WellFormed(Frame(columns, a + b))
    requires HasCleaningColumns(Frame(columns, a + b)) && "year" in columns
    ensures WellFormed(Frame(columns, a)) && WellFormed(Frame(columns, b))
    ensures CleanData(Frame(columns, a + b)).Ok?
    ensures CleanData(Frame(columns, a + b)).value.rows
         == CleanData(Frame(columns, a)).value.rows + CleanData(Frame(columns, b)).value.rows
  {
    assert forall r :: r in a ==> r in a + b;
    assert forall r :: r in b ==> r in a + b;
    KeepCompleteAppend(a, b, CLEANING_SUBSET);
    var ka, kb := KeepComplete(a, CLEANING_SUBSET), KeepComplete(b, CLEANING_SUBSET);
    CleanedRows(columns, a + b);
    CleanedRows(columns, a);
    CleanedRows(columns, b);
    DropEachAppend(ka, kb, CleanData(Frame(columns, a + b)).value.rows,
                   CleanData(Frame(columns, a)).value.rows, CleanData(Frame(columns, b)).value.rows, "year");
  }

  lemma DropEachAppend(ka: seq<Row>, kb: seq<Row>, l: seq<Row>, la: seq<Row>, lb: seq<Row>, c: string)
    requires |l| == |ka| + |kb| && forall i :: 0 <= i < |ka| + |kb| ==> l[i] == (ka + kb)[i] - {c}
    requires |la| == |ka| && forall i :: 0 <= i < |ka| ==> la[i] == ka[i] - {c}
    requires |lb| == |kb| && forall i :: 0 <= i < |kb| ==> lb[i] == kb[i] - {c}
    ensures l == la + lb
  {
    forall i | 0 <= i < |l| ensures l[i] == (la + lb)[i] {
      if i >= |ka| {
        assert (ka + kb)[i] == kb[i - |ka|];
      }
    }
  }

  /** The cleaned rows are the complete rows, in order, each without its year. */
  lemma CleanedRows(columns: seq<string>, rows: seq<Row>)
    requires WellFormed(Frame(columns, rows)) && HasCleaningColumns(Frame(columns, rows)) && "year" in columns
    ensures CleanData(Frame(columns, rows)).Ok?
    ensures var kept := KeepComplete(rows, CLEANING_SUBSET);
      var out := CleanData(Frame(columns, rows)).value.rows;
      |out| == |kept| && forall i :: 0 <= i < |kept| ==> out[i] == kept[i] - {"year"}
  {
  }

  /** A one-row frame keeps its row, without the year, exactly when the row is complete. */
  lemma CleanDataOneRow(columns: seq<string>, r: Row)
    requires WellFormed(Frame(columns, [r]))
    requires HasCleaningColumns(Frame(columns, [r])) && "year" in columns
    ensures CleanData(Frame(columns, [r])).Ok?
    ensures CleanData(Frame(columns, [r])).value.rows == if Complete(r, CLEANING_SUBSET) then [r - {"year"}] else []
  {
    assert [r][1..] == [];
  }

  /** The four-row sample used by the backend tests. */
  function SampleRow(species: Cell, island: string, billLength: Cell, billDepth: real,
                     flipperLength: real, bodyMass: real, sex: string, year: real): Row
  {
    map[
      "species" := species,
      "island" := Text(island),
      "bill_length_mm" := billLength,
      "bill_depth_mm" := Number(billDepth),
      "flipper_length_mm" := Number(flipperLength),
      "body_mass_g" := Number(bodyMass),
      "sex" := Text(sex),
      "year" := Number(year)
    ]
  }

  const SAMPLE_COLUMNS: seq<string> := CSV_HEADER + ["year"]

  function RawSample(): Frame
  {
    Frame(SAMPLE_COLUMNS, [
      SampleRow(Text("Adelie"), "Torgersen", Number(39.1), 18.7, 181.0, 3750.0, "male", 2007.0),
      SampleRow(Text("Gentoo"), "Biscoe", Number(50.0), 15.0, 220.0, 5000.0, "female", 2008.0),
      SampleRow(Text("Adelie"), "Dream", NA, 18.0, 190.0, 3800.0, "male", 2009.0),
      SampleRow(NA, "Torgersen", Number(40.0), 19.0, 195.0, 4000.0, "female", 2007.0)
    ])
  }

  lemma SampleRowKeys(species: Cell, island: string, billLength: Cell, billDepth: real,
                      flipperLength: real, bodyMass: real, sex: string, year: real)
    ensures SampleRow(species, island, billLength, billDepth, flipperLength, bodyMass, sex, year).Keys
         == ColumnSet(SAMPLE_COLUMNS)
  {
  }

  lemma SampleRowComplete(species: Cell, island: string, billLength: Cell, billDepth: real,
                          flipperLength: real, bodyMass: real, sex: string, year: real)
    ensures Complete(SampleRow(species, island, billLength, billDepth, flipperLength, bodyMass, sex, year), CLEANING_SUBSET)
        <==> species != NA && billLength != NA
  {
    CompleteForCleaning(SampleRow(species, island, billLength, billDepth, flipperLength, bodyMass, sex, year));
  }

  lemma CompleteForCleaning(r: Row)
    ensures Complete(r, CLEANING_SUBSET) <==>
      && "bill_length_mm" in r && r["bill_length_mm"] != NA
      && "bill_depth_mm" in r && r["bill_depth_mm"] != NA
      && "flipper_length_mm" in r && r["flipper_length_mm"] != NA
      && "body_mass_g" in r && r["body_mass_g"] != NA
      && "species" in r && r["species"] != NA
  {
    assert CLEANING_SUBSET == ["bill_length_mm", "bill_depth_mm", "flipper_length_mm", "body_mass_g", "species"];
  }

  lemma KeepTwoOfFour(r0: Row, r1: Row, r2: Row, r3: Row, subset: seq<string>)
    requires Complete(r0, subset) && Complete(r1, subset) && !Complete(r2, subset) && !Complete(r3, subset)
    ensures KeepComplete([r0, r1, r2, r3], subset) == [r0, r1]
  {
    assert [r3][1..] == [];
    assert KeepComplete([r3], subset) == [];
    assert [r2, r3][1..] == [r3];
    assert KeepComplete([r2, r3], subset) == [];
    assert [r1, r2, r3][1..] == [r2, r3];
    assert KeepComplete([r1, r2, r3], subset) == [r1];
    assert [r0, r1, r2, r3][1..] == [r1, r2, r3];
  }

  lemma SampleColumnsFacts()
    ensures Distinct(SAMPLE_COLUMNS) && "year" in SAMPLE_COLUMNS
    ensures HasCleaningColumns(Frame(SAMPLE_COLUMNS, []))
  {
  }

  lemma FourRowsWellFormed(cols: seq<string>, r0: Row, r1: Row, r2: Row, r3: Row)
    requires Distinct(cols)
    requires r0.Keys == ColumnSet(cols) && r1.Keys == ColumnSet(cols)
    requires r2.Keys == ColumnSet(cols) && r3.Keys == ColumnSet(cols)
    ensures WellFormed(Frame(cols, [r0, r1, r2, r3]))
  {
  }

  lemma SampleWellFormed()
    ensures WellFormed(RawSample())
  {
    SampleColumnsFacts();
    var rs := RawSample().rows;
    SampleRowKeys(Text("Adelie"), "Torgersen", Number(39.1), 18.7, 181.0, 3750.0, "male", 2007.0);
    SampleRowKeys(Text("Gentoo"), "Biscoe", Number(50.0), 15.0, 220.0, 5000.0, "female", 2008.0);
    SampleRowKeys(Text("Adelie"), "Dream", NA, 18.0, 190.0, 3800.0, "male", 2009.0);
    SampleRowKeys(NA, "Torgersen", Number(40.0), 19.0, 195.0, 4000.0, "female", 2007.0);
    FourRowsWellFormed(SAMPLE_COLUMNS, rs[0], rs[1], rs[2], rs[3]);
  }

  /** On the test sample, cleaning leaves two rows and no year column. */
  lemma CleanDataOnSample()
    ensures WellFormed(RawSample())
    ensures CleanData(RawSample()).Ok?
    ensures |CleanData(RawSample()).value.rows| == 2
    ensures "year" !in CleanData(RawSample()).value.columns
  {
    SampleWellFormed();
    SampleColumnsFacts();
    var rs := RawSample().rows;
    SampleRowComplete(Text("Adelie"), "Torgersen", Number(39.1), 18.7, 181.0, 3750.0, "male", 2007.0);
    SampleRowComplete(Text("Gentoo"), "Biscoe", Number(50.0), 15.0, 220.0, 5000.0, "female", 2008.0);
    SampleRowComplete(Text("Adelie"), "Dream", NA, 18.0, 190.0, 3800.0, "male", 2009.0);
    SampleRowComplete(NA, "Torgersen", Number(40.0), 19.0, 195.0, 4000.0, "female", 2007.0);
    KeepTwoOfFour(rs[0], rs[1], rs[2], rs[3], CLEANING_SUBSET);
  }

  // ------------------------------------------------------------ feature split

  /**
   * `split_feature_from_target`: the species column as the target, every other
   * column as the features. Putting each row's target back gives the input row.
   */
  function SplitFeatureFromTarget(df: Frame): (r: Result<(Frame, seq<Cell>), Error>)
    requires WellFormed(df)
    ensures r.Err? <==> "species" !in df.columns
    ensures r.Err? ==> r.error == KeyError(["species"])
    ensures r.Ok? ==> WellFormed(r.value.0) && r.value.0.columns == Without(df.columns, "species")
    ensures r.Ok? ==> |r.value.0.rows| == |r.value.1| == |df.rows|
    ensures r.Ok? ==> forall i :: 0 <= i < |df.rows| ==>
      "species" !in r.value.0.rows[i] && r.value.0.rows[i]["species" := r.value.1[i]] == df.rows[i]
  {
    if "species" !in df.columns then Err(KeyError(["species"]))
    else
      assert forall i :: 0 <= i < |df.rows| ==> df.rows[i] in df.rows;
      var target := seq(|df.rows|, i requires 0 <= i < |df.rows| => df.rows[i]["species"]);
      var features := DropColumn(df, "species").value;
      assert forall i :: 0 <= i < |df.rows| ==> features.rows[i]["species" := target[i]] == df.rows[i] by {
        forall i | 0 <= i < |df.rows| ensures features.rows[i]["species" := target[i]] == df.rows[i] {
          RestoreColumn(df.rows[i], "species");
        }
      }
      Ok((features, target))
  }

  /** Putting a dropped cell back gives the row it came from. */
  lemma RestoreColumn(m: Row, c: string)
    requires c in m
    ensures (m - {c})[c := m[c]] == m
  {
    var u := (m - {c})[c := m[c]];
    assert u.Keys == m.Keys;
  }

  // ---------------------------------------------------------- prediction log

  /** A line of the log file: the header, or one record of cells in header order. */
  datatype Line = Header(names: seq<string>) | Record(cells: seq<Cell>)

  /** The log file as stored: whether it exists, and its lines. */
  datatype LogState = LogState(fileExists: bool, lines: seq<Line>)

  /** The shape save_prediction gives the file: absent and empty, or the header then records of its width. */
  predicate ValidLog(s: LogState)
  {
    && (!s.fileExists ==> s.lines == [])
    && (s.fileExists ==> |s.lines| >= 1 && s.lines[0] == Header(CSV_HEADER))
    && forall i :: 1 <= i < |s.lines| ==> s.lines[i].Record? && |s.lines[i].cells| == |CSV_HEADER|
  }

  /** A row written in CSV_HEADER order. */
  function RecordOf(r: Row): (l: Line)
    ensures l.Record? && |l.cells| == |CSV_HEADER|
  {
    Record(seq(|CSV_HEADER|, i requires 0 <= i < |CSV_HEADER| =>
      if CSV_HEADER[i] in r then r[CSV_HEADER[i]] else NA))
  }

  function RecordLines(rows: seq<Row>): (ls: seq<Line>)
    ensures |ls| == |rows|
    ensures forall i :: 0 <= i < |rows| ==> ls[i] == RecordOf(rows[i])
  {
    seq(|rows|, i requires 0 <= i < |rows| => RecordOf(rows[i]))
  }

  /**
   * `save_prediction` on the file state: reorder the frame to CSV_HEADER (a
   * KeyError, and nothing written, when a column is absent), write the header
   * only when the file did not exist, then one line per row.
   */
  function SavePrediction(s: LogState, data: Frame): (r: Result<LogState, Error>)
    requires WellFormed(data)
    ensures r.Err? <==> exists c :: c in CSV_HEADER && c !in data.columns
    ensures r.Err? ==> r.error == KeyError(MissingFrom(CSV_HEADER, data.columns))
    ensures r.Ok? ==> r.value.fileExists
    ensures r.Ok? && ValidLog(s) ==> ValidLog(r.value)
    ensures r.Ok? && s.fileExists ==> |r.value.lines| == |s.lines| + |data.rows| && r.value.lines[..|s.lines|] == s.lines
    ensures r.Ok? && !s.fileExists ==> |r.value.lines| == 1 + |data.rows| && r.value.lines[0] == Header(CSV_HEADER)
    ensures r.Ok? ==> forall i :: 0 <= i < |data.rows| ==>
      r.value.lines[|r.value.lines| - |data.rows| + i] == RecordOf(data.rows[i])
  {
    // `data[CSV_HEADER]` fails on the absent columns; RecordOf then writes each row in CSV_HEADER order.
    var missing := MissingFrom(CSV_HEADER, data.columns);
    if missing != [] then
      assert missing[0] in CSV_HEADER && missing[0] !in data.columns;
      Err(KeyError(missing))
    else
      var prefix := if s.fileExists then s.lines else [Header(CSV_HEADER)];
      Ok(LogState(true, prefix + RecordLines(data.rows)))
  }

  /** A save appends exactly the frame's records to the lines already there (the header alone for a new file). */
  lemma SavePredictionAppends(s: LogState, data: Frame)
    requires WellFormed(data) && SavePrediction(s, data).Ok?
    ensures SavePrediction(s, data).value.lines
         == (if s.fileExists then s.lines else [Header(CSV_HEADER)]) + RecordLines(data.rows)
  {
  }

  /** A savable one-row frame adds one record line after what was there. */
  lemma SaveOneRow(s: LogState, data: Frame)
    requires WellFormed(data) && Savable(data) && |data.rows| == 1
    ensures SavePrediction(s, data).Ok?
    ensures SavePrediction(s, data).value.lines
         == (if s.fileExists then s.lines else [Header(CSV_HEADER)]) + [RecordOf(data.rows[0])]
  {
    SavePredictionAppends(s, data);
    var ls := RecordLines(data.rows);
    assert ls == [RecordOf(data.rows[0])];
  }

  /** Saving several frames in turn; the first frame that lacks a CSV_HEADER column stops it with a KeyError. */
  function SaveAll(s: LogState, frames: seq<Frame>): (r: Result<LogState, Error>)
    requires forall f :: f in frames ==> WellFormed(f)
    ensures r.Err? ==> r.error.KeyError? && exists i :: 0 <= i < |frames| && !Savable(frames[i])
    decreases |frames|
  {
    if frames == [] then Ok(s)
    else
      var next :- SavePrediction(s, frames[0]);
      var rest := SaveAll(next, frames[1..]);
      assert rest.Err? ==> exists i :: 1 <= i < |frames| && !Savable(frames[i]) by {
        if rest.Err? {
          var j :| 0 <= j < |frames[1..]| && !Savable(frames[1..][j]);
          assert frames[1 + j] == frames[1..][j];
        }
      }
      rest
  }

  /** The record lines of every frame, frame by frame. */
  function AllRecords(frames: seq<Frame>): (ls: seq<Line>)
    ensures forall i :: 0 <= i < |ls| ==> ls[i].Record? && |ls[i].cells| == |CSV_HEADER|
  {
    if frames == [] then [] else RecordLines(frames[0].rows) + AllRecords(frames[1..])
  }

  function TotalRows(frames: seq<Frame>): nat
  {
    if frames == [] then 0 else |frames[0].rows| + TotalRows(frames[1..])
  }

  function HeaderCount(lines: seq<Line>): nat
  {
    if lines == [] then 0 else (if lines[0].Header? then 1 else 0) + HeaderCount(lines[1..])
  }

  lemma {:induction false} NoHeaderAmongRecords(lines: seq<Line>)
    requires forall i :: 0 <= i < |lines| ==> lines[i].Record?
    ensures HeaderCount(lines) == 0
  {
    if lines != [] {
      NoHeaderAmongRecords(lines[1..]);
    }
  }

  /** A valid log whose file exists holds exactly one header line, its first. */
  lemma ValidLogHasOneHeader(s: LogState)
    requires ValidLog(s) && s.fileExists
    ensures HeaderCount(s.lines) == 1 && s.lines[0] == Header(CSV_HEADER)
  {
    NoHeaderAmongRecords(s.lines[1..]);
  }

  /** A frame `save_prediction` accepts: it has every CSV_HEADER column. */
  predicate Savable(f: Frame)
  {
    forall c :: c in CSV_HEADER ==> c in f.columns
  }

  /**
   * Saving k frames never fails when each has the CSV_HEADER columns, leaves
   * every existing line as it was, and adds one line per saved row plus the
   * header if the file was absent; the file then holds exactly one header.
   */
  lemma {:induction false} SaveAllAppendsOnly(s: LogState, frames: seq<Frame>)
    requires ValidLog(s)
    requires forall f :: f in frames ==> WellFormed(f) && Savable(f)
    ensures SaveAll(s, frames).Ok?
    ensures ValidLog(SaveAll(s, frames).value)
    ensures s.fileExists ==> |SaveAll(s, frames).value.lines| == |s.lines| + TotalRows(frames)
    ensures s.fileExists ==> SaveAll(s, frames).value.lines[..|s.lines|] == s.lines
    ensures !s.fileExists && frames != [] ==> |SaveAll(s, frames).value.lines| == 1 + TotalRows(frames)
    ensures s.fileExists || frames != [] ==> HeaderCount(SaveAll(s, frames).value.lines) == 1
    decreases |frames|
  {
    if frames != [] {
      assert frames[0] in frames;
      var next := SavePrediction(s, frames[0]).value;
      assert forall f :: f in frames[1..] ==> f in frames;
      SaveAllAppendsOnly(next, frames[1..]);
      var fin := SaveAll(next, frames[1..]).value;
      if s.fileExists {
        assert fin.lines[..|s.lines|] == fin.lines[..|next.lines|][..|s.lines|];
      }
      ValidLogHasOneHeader(fin);
    } else if s.fileExists {
      ValidLogHasOneHeader(s);
    }
  }

  /**
   * What the saves write: the lines already there (the header alone for a new
   * file), then the rows of each frame, frame by frame, in CSV_HEADER order.
   */
  lemma {:induction false} SaveAllWritesRecords(s: LogState, frames: seq<Frame>)
    requires ValidLog(s)
    requires forall f :: f in frames ==> WellFormed(f) && Savable(f)
    ensures SaveAll(s, frames).Ok?
    ensures SaveAll(s, frames).value.lines
         == (if s.fileExists || frames == [] then s.lines else [Header(CSV_HEADER)]) + AllRecords(frames)
    decreases |frames|
  {
    if frames != [] {
      assert frames[0] in frames;
      var next := SavePrediction(s, frames[0]).value;
      assert forall f :: f in frames[1..] ==> f in frames;
      SaveAllWritesRecords(next, frames[1..]);
      SavePredictionAppends(s, frames[0]);
      var prefix := if s.fileExists then s.lines else [Header(CSV_HEADER)];
      assert next.lines == prefix + RecordLines(frames[0].rows);
      assert SaveAll(s, frames) == SaveAll(next, frames[1..]);
      assert AllRecords(frames) == RecordLines(frames[0].rows) + AllRecords(frames[1..]);
      AppendAssociative(prefix, RecordLines(frames[0].rows), AllRecords(frames[1..]));
    }
  }

  lemma AppendAssociative<T>(a: seq<T>, b: seq<T>, c: seq<T>)
    ensures (a + b) + c == a + (b + c)
  {
  }

  /** From an absent file, k one-row saves give one header line followed by the k rows, in the order saved. */
  lemma FreshLogAfterSaves(frames: seq<Frame>)
    requires forall f :: f in frames ==> WellFormed(f) && Savable(f) && |f.rows| == 1
    requires frames != []
    ensures SaveAll(LogState(false, []), frames).Ok?
    ensures var lines := SaveAll(LogState(false, []), frames).value.lines;
      && |lines| == |frames| + 1 && lines[0] == Header(CSV_HEADER) && HeaderCount(lines) == 1
      && forall i :: 0 <= i < |frames| ==> lines[i + 1] == RecordOf(frames[i].rows[0])
  {
    SaveAllAppendsOnly(LogState(false, []), frames);
    SaveAllWritesRecords(LogState(false, []), frames);
    OneRowRecords(frames);
  }

  /** With one row per frame, the records are those rows, one per frame. */
  lemma {:induction false} OneRowRecords(frames: seq<Frame>)
    requires forall f :: f in frames ==> |f.rows| == 1
    ensures |AllRecords(frames)| == |frames|
    ensures forall i :: 0 <= i < |frames| ==> AllRecords(frames)[i] == RecordOf(frames[i].rows[0])
  {
    if frames != [] {
      assert frames[0] in frames;
      assert forall f :: f in frames[1..] ==> f in frames;
      OneRowRecords(frames[1..]);
      assert RecordLines(frames[0].rows) == [RecordOf(frames[0].rows[0])];
    }
  }

  // ------------------------------------------------------------ reading back

  /** What reading a written cell gives back: pandas reads an empty field as NaN. */
  function ReadBack(c: Cell): (r: Cell)
    ensures r == NA <==> c == NA || c == Text("")
    ensures r != NA ==> r == c
  {
    if c == Text("") then NA else c
  }

  function IndexOf(names: seq<string>, c: string): (i: nat)
    requires c in names
    ensures i < |names| && names[i] == c
  {
    if names[0] == c then 0 else 1 + IndexOf(names[1..], c)
  }

  /** Cell i of a line as read; a short line is filled with NaN. */
  function CellAt(cells: seq<Cell>, i: nat): Cell
  {
    if i < |cells| then ReadBack(cells[i]) else NA
  }

  function RowOf(names: seq<string>, cells: seq<Cell>): (r: Row)
    ensures r.Keys == ColumnSet(names)
  {
    map c | c in names :: CellAt(cells, IndexOf(names, c))
  }

  function CellsOf(l: Line): seq<Cell>
  {
    if l.Record? then l.cells else []
  }

  /** The data lines of a file read under the header `names`. */
  function RowsOf(names: seq<string>, lines: seq<Line>): (rows: seq<Row>)
    ensures |rows| == |lines|
    ensures forall i :: 0 <= i < |lines| ==> rows[i].Keys == ColumnSet(names)
  {
    seq(|lines|, i requires 0 <= i < |lines| => RowOf(names, CellsOf(lines[i])))
  }

  lemma RowsOfAppend(names: seq<string>, a: seq<Line>, b: seq<Line>)
    ensures RowsOf(names, a + b) == RowsOf(names, a) + RowsOf(names, b)
  {
    var l, r := RowsOf(names, a + b), RowsOf(names, a) + RowsOf(names, b);
    forall i | 0 <= i < |l| ensures l[i] == r[i] {
      if i < |a| {
        assert (a + b)[i] == a[i];
      } else {
        assert (a + b)[i] == b[i - |a|];
      }
    }
  }

  lemma CsvHeaderDistinct()
    ensures Distinct(CSV_HEADER)
  {
  }

  /** `load_data` on the log: the header names the columns, each later line is a row. */
  function ReadLog(s: LogState): (f: CsvFile)
    requires ValidLog(s)
    ensures f.Present? <==> s.fileExists
    ensures f.Present? ==> WellFormed(f.frame) && f.frame.columns == CSV_HEADER
    ensures f.Present? ==> |f.frame.rows| == |s.lines| - 1
  {
    if !s.fileExists then NoFile
    else
      CsvHeaderDistinct();
      var names := s.lines[0].names;
      Present(Frame(names, RowsOf(names, s.lines[1..])))
  }

  /** Reading back a saved row gives its CSV_HEADER cells, each as a CSV round trip leaves it. */
  lemma RowOfRecord(r: Row)
    ensures RowOf(CSV_HEADER, RecordOf(r).cells).Keys == ColumnSet(CSV_HEADER)
    ensures forall c :: c in CSV_HEADER && c in r ==> RowOf(CSV_HEADER, RecordOf(r).cells)[c] == ReadBack(r[c])
  {
    forall c | c in CSV_HEADER && c in r ensures RowOf(CSV_HEADER, RecordOf(r).cells)[c] == ReadBack(r[c]) {
      var i := IndexOf(CSV_HEADER, c);
      assert RecordOf(r).cells[i] == r[c];
    }
  }

  // ---------------------------------------------------------- combined view

  /**
   * `load_combined_data`: the cleaned seed followed by the log (when it exists
   * and holds any value), newest row first.
   */
  function LoadCombinedData(seed: CsvFile, log: CsvFile): (r: Result<Frame, Error>)
    requires ReadableFile(seed)
    ensures seed.NoFile? ==> r == Err(FileNotFound(RAW_DATA_PATH))
    ensures r.Ok? && ReadableFile(log) ==> WellFormed(r.value)
  {
    var raw :- LoadData(seed, RAW_DATA_PATH);
    var cleaned :- CleanData(raw);
    if log.NoFile? then Ok(ReverseRows(cleaned))
    else
      var history := LoadData(log, PROCESSED_DATA_PATH).value;
      if AnyPresent(history) then Ok(ReverseRows(Concat(cleaned, history)))
      else Ok(ReverseRows(cleaned))
  }
  /**
   * With the seed file present, the view fails exactly when cleaning fails and
   * with the same error; otherwise it starts with the cleaned columns and has
   * at least the cleaned rows.
   */
  lemma LoadCombinedDataFromSeed(raw: Frame, log: CsvFile)
    requires WellFormed(raw)
    ensures var r := LoadCombinedData(Present(raw), log);
      && (r.Err? <==> CleanData(raw).Err?)
      && (r.Err? ==> r.error == CleanData(raw).error)
      && (r.Ok? ==> var cols := CleanData(raw).value.columns;
            |cols| <= |r.value.columns| && r.value.columns[..|cols|] == cols
            && |r.value.rows| >= |CleanData(raw).value.rows|)
  {
    assert LoadData(Present(raw), RAW_DATA_PATH) == Ok(raw);
  }


  /** An absent seed file surfaces as the FileNotFoundError of load_data, whatever the log holds. */
  lemma MissingSeedFails(log: CsvFile)
    ensures LoadCombinedData(NoFile, log) == Err(FileNotFound(RAW_DATA_PATH))
  {
  }

  /** Without a log holding a value, the view is the cleaned seed reversed. */
  lemma SeedOnlyView(raw: Frame, log: CsvFile)
    requires WellFormed(raw) && CleanData(raw).Ok?
    requires log.NoFile? || !AnyPresent(log.frame)
    ensures LoadCombinedData(Present(raw), log) == Ok(ReverseRows(CleanData(raw).value))
  {
    assert LoadData(Present(raw), RAW_DATA_PATH) == Ok(raw);
  }

  /**
   * With a log holding a value, the view lists the log rows newest first and
   * then the seed rows newest first, all widened to the combined columns.
   */
  lemma CombinedViewOrder(raw: Frame, history: Frame)
    requires WellFormed(raw) && CleanData(raw).Ok? && AnyPresent(history)
    ensures var cleaned := CleanData(raw).value;
      var cols := cleaned.columns + MissingFrom(history.columns, cleaned.columns);
      && LoadCombinedData(Present(raw), Present(history)).Ok?
      && LoadCombinedData(Present(raw), Present(history)).value.columns == cols
      && LoadCombinedData(Present(raw), Present(history)).value.rows
         == Reversed(ExtendAll(history.rows, cols)) + Reversed(ExtendAll(cleaned.rows, cols))
  {
    ViewWithLog(raw, history);
    ReversedConcat(CleanData(raw).value, history);
  }

  /** With a log frame holding a value, the view is the reversed concat of the cleaned seed and the log. */
  lemma ViewWithLog(raw: Frame, history: Frame)
    requires WellFormed(raw) && CleanData(raw).Ok? && AnyPresent(history)
    ensures LoadCombinedData(Present(raw), Present(history)) == Ok(ReverseRows(Concat(CleanData(raw).value, history)))
  {
    assert LoadData(Present(raw), RAW_DATA_PATH) == Ok(raw);
    assert LoadData(Present(history), PROCESSED_DATA_PATH).value == history;
  }

  /** Reversing a concat puts the second frame's rows, reversed, first. */
  lemma ReversedConcat(a: Frame, b: Frame)
    ensures var cols := a.columns + MissingFrom(b.columns, a.columns);
      && ReverseRows(Concat(a, b)).columns == cols
      && ReverseRows(Concat(a, b)).rows == Reversed(ExtendAll(b.rows, cols)) + Reversed(ExtendAll(a.rows, cols))
  {
    var f := Concat(a, b);
    ReversedAppend(ExtendAll(a.rows, f.columns), ExtendAll(b.rows, f.columns));
  }

  lemma ReversedSnoc<T>(s: seq<T>, x: T)
    ensures Reversed(s + [x]) == [x] + Reversed(s)
  {
    ReversedAppend(s, [x]);
  }

  /**
   * Reading the log after a save gives the rows read before (none when the file
   * was absent), then one row per saved row, as the CSV round trip leaves it.
   */
  lemma ReadLogAfterSave(s: LogState, data: Frame)
    requires ValidLog(s) && WellFormed(data) && Savable(data)
    ensures SavePrediction(s, data).Ok?
    ensures var after := ReadLog(SavePrediction(s, data).value);
      && after.Present? && after.frame.columns == CSV_HEADER
      && after.frame.rows == (if s.fileExists then ReadLog(s).frame.rows else [])
                             + RowsOf(CSV_HEADER, RecordLines(data.rows))
  {
    var next := SavePrediction(s, data).value;
    var saved := RecordLines(data.rows);
    if s.fileExists {
      assert next.lines[1..] == s.lines[1..] + saved;
      RowsOfAppend(CSV_HEADER, s.lines[1..], saved);
    } else {
      assert next.lines[1..] == saved;
    }
  }

  /** A saved row reads back as its CSV_HEADER cells, each as the CSV round trip leaves it. */
  lemma SavedRowsReadBack(rows: seq<Row>, i: nat)
    requires i < |rows|
    ensures RowsOf(CSV_HEADER, RecordLines(rows))[i] == RowOf(CSV_HEADER, RecordOf(rows[i]).cells)
  {
  }

  lemma ExtendAllKeeps(rows: seq<Row>, cols: seq<string>)
    requires forall r :: r in rows ==> r.Keys == ColumnSet(cols)
    ensures ExtendAll(rows, cols) == rows
  {
    forall i | 0 <= i < |rows| ensures Extend(rows[i], cols) == rows[i] {
      assert rows[i] in rows;
      ExtendKeeps(rows[i], cols);
    }
  }

  /** Appending row x to b puts x, widened, first in the reversed concat of a and b. */
  lemma ConcatSnocReversed(a: Frame, b: Frame, olds: seq<Row>, x: Row)
    requires b.rows == olds + [x]
    ensures var f := Concat(a, b);
      ReverseRows(f).rows == [Extend(x, f.columns)] + Reversed(ExtendAll(a.rows, f.columns) + ExtendAll(olds, f.columns))
  {
    var cols := Concat(a, b).columns;
    assert ExtendAll(olds + [x], cols) == ExtendAll(olds, cols) + [Extend(x, cols)];
    assert Concat(a, b).rows == (ExtendAll(a.rows, cols) + ExtendAll(olds, cols)) + [Extend(x, cols)];
    ReversedSnoc(ExtendAll(a.rows, cols) + ExtendAll(olds, cols), Extend(x, cols));
  }

  /** A log that gains one row under the same columns: the reversed concat gains it in front. */
  lemma ConcatGrowsInFront(a: Frame, b: Frame, b': Frame, x: Row)
    requires b'.columns == b.columns && b'.rows == b.rows + [x]
    ensures Concat(a, b').columns == Concat(a, b).columns
    ensures ReverseRows(Concat(a, b')).rows[1..] == ReverseRows(Concat(a, b)).rows
  {
    ConcatSnocReversed(a, b', b.rows, x);
  }

  /** A first log row whose columns the seed already has: the view is the seed's, with that row in front. */
  lemma ConcatFirstRowInFront(a: Frame, b: Frame, x: Row)
    requires WellFormed(a) && ColumnSet(b.columns) <= ColumnSet(a.columns) && b.rows == [x]
    ensures Concat(a, b).columns == a.columns
    ensures ReverseRows(Concat(a, b)).rows[1..] == ReverseRows(a).rows
  {
    ConcatNoNewColumns(a, b);
    assert b.rows == [] + [x];
    ConcatSnocReversed(a, b, [], x);
    ExtendAllKeeps(a.rows, a.columns);
    assert ExtendAll(a.rows, a.columns) + ExtendAll([], a.columns) == a.rows;
  }

  /** Row v holds the CSV_HEADER cells of row r as the CSV round trip leaves them. */
  predicate SavedAs(v: Row, r: Row)
  {
    forall c :: c in CSV_HEADER ==> c in v && c in r && v[c] == ReadBack(r[c])
  }

  /** Row r has a CSV_HEADER cell that still holds a value once read back. */
  predicate HoldsValue(r: Row)
  {
    exists c :: c in CSV_HEADER && c in r && ReadBack(r[c]) != NA
  }

  /** The newest row of the view holds the saved cells, each as the CSV round trip leaves it. */
  lemma NewestRowCells(row: Row, cols: seq<string>)
    requires forall c :: c in CSV_HEADER ==> c in row && c in cols
    ensures SavedAs(Extend(RowOf(CSV_HEADER, RecordOf(row).cells), cols), row)
  {
    RowOfRecord(row);
  }

  /** The rows of the log before a save, as the combined view sees them. */
  function EarlierRows(s: LogState): seq<Row>
    requires ValidLog(s)
  {
    if s.fileExists then ReadLog(s).frame.rows else []
  }

  /** After saving a one-row frame that holds a value, the log reads as before plus that row, and holds a value. */
  lemma OneSaveReadsBack(s: LogState, data: Frame)
    requires ValidLog(s) && WellFormed(data) && Savable(data) && |data.rows| == 1
    requires HoldsValue(data.rows[0])
    ensures SavePrediction(s, data).Ok?
    ensures var h := ReadLog(SavePrediction(s, data).value);
      && h.Present? && h.frame.columns == CSV_HEADER && AnyPresent(h.frame)
      && h.frame.rows == EarlierRows(s) + [RowOf(CSV_HEADER, RecordOf(data.rows[0]).cells)]
  {
    var row := data.rows[0];
    assert row in data.rows;
    ReadLogAfterSave(s, data);
    OneRecordReadsBack(data.rows);
    var c := NewRowHoldsValue(row);
    LastRowPresent(ReadLog(SavePrediction(s, data).value).frame, EarlierRows(s), RowOf(CSV_HEADER, RecordOf(row).cells), c);
  }

  lemma OneRecordReadsBack(rows: seq<Row>)
    requires |rows| == 1
    ensures RowsOf(CSV_HEADER, RecordLines(rows)) == [RowOf(CSV_HEADER, RecordOf(rows[0]).cells)]
  {
    SavedRowsReadBack(rows, 0);
  }

  lemma LastRowPresent(h: Frame, olds: seq<Row>, x: Row, c: string)
    requires h.rows == olds + [x] && c in x && x[c] != NA
    ensures AnyPresent(h)
  {
    PresentAt(h, |olds|, c);
  }

  /** A saved row that holds a value reads back holding one (the column is returned). */
  lemma NewRowHoldsValue(row: Row) returns (c: string)
    requires HoldsValue(row) && forall d :: d in CSV_HEADER ==> d in row
    ensures c in CSV_HEADER && RowOf(CSV_HEADER, RecordOf(row).cells)[c] != NA
  {
    RowOfRecord(row);
    c :| c in CSV_HEADER && c in row && ReadBack(row[c]) != NA;
  }

  /**
   * After saving a one-row frame that holds a value, the combined view starts
   * with that row, each CSV_HEADER cell as the CSV round trip leaves it.
   */
  lemma SaveThenLoadNewestFirst(raw: Frame, s: LogState, data: Frame)
    requires WellFormed(raw) && CleanData(raw).Ok?
    requires ValidLog(s) && WellFormed(data) && Savable(data) && |data.rows| == 1
    requires HoldsValue(data.rows[0])
    ensures SavePrediction(s, data).Ok?
    ensures var after := LoadCombinedData(Present(raw), ReadLog(SavePrediction(s, data).value));
      after.Ok? && |after.value.rows| >= 1 && SavedAs(after.value.rows[0], data.rows[0])
  {
    var row := data.rows[0];
    assert row in data.rows;
    OneSaveReadsBack(s, data);
    var h := ReadLog(SavePrediction(s, data).value).frame;
    var cleaned := CleanData(raw).value;
    ViewWithLog(raw, h);
    var f := Concat(cleaned, h);
    ConcatSnocReversed(cleaned, h, EarlierRows(s), RowOf(CSV_HEADER, RecordOf(row).cells));
    forall d | d in CSV_HEADER ensures d in f.columns {
      assert d in h.columns;
    }
    NewestRowCells(row, f.columns);
  }

  /**
   * Below the newest row, the view after the save is the view before it when
   * the earlier rows are laid out alike: the log already held a value, or it
   * held no row (absent, or the header alone) and the cleaned seed has every
   * CSV_HEADER column.
   */
  lemma SaveKeepsEarlierView(raw: Frame, s: LogState, data: Frame)
    requires WellFormed(raw) && CleanData(raw).Ok?
    requires ValidLog(s) && WellFormed(data) && Savable(data) && |data.rows| == 1
    requires HoldsValue(data.rows[0])
    requires (s.fileExists && AnyPresent(ReadLog(s).frame))
             || (EarlierRows(s) == [] && ColumnSet(CSV_HEADER) <= ColumnSet(CleanData(raw).value.columns))
    ensures SavePrediction(s, data).Ok?
    ensures var before := LoadCombinedData(Present(raw), ReadLog(s));
      var after := LoadCombinedData(Present(raw), ReadLog(SavePrediction(s, data).value));
      && before.Ok? && after.Ok? && |after.value.rows| >= 1
      && after.value.columns == before.value.columns && after.value.rows[1..] == before.value.rows
  {
    OneSaveReadsBack(s, data);
    var h := ReadLog(SavePrediction(s, data).value).frame;
    var cleaned := CleanData(raw).value;
    var newRow := RowOf(CSV_HEADER, RecordOf(data.rows[0]).cells);
    ViewWithLog(raw, h);
    if s.fileExists && AnyPresent(ReadLog(s).frame) {
      ViewWithLog(raw, ReadLog(s).frame);
      ConcatGrowsInFront(cleaned, ReadLog(s).frame, h, newRow);
    } else {
      assert h.rows == [newRow];
      SeedOnlyView(raw, ReadLog(s));
      ConcatFirstRowInFront(cleaned, h, newRow);
    }
  }

  // ---------------------------------------------------------- the log object

  /** The prediction log file, written in place by save_prediction. */
  class PredictionLog {
    var fileExists: bool
    var lines: seq<Line>

    function State(): LogState
      reads this
    {
      LogState(fileExists, lines)
    }

    predicate Valid()
      reads this
    {
      ValidLog(State())
    }

    /** What reading the file now gives. */
    function Snapshot(): CsvFile
      reads this
      requires Valid()
    {
      ReadLog(State())
    }

    /** A log file that does not exist yet. */
    constructor Absent()
      ensures Valid() && State() == LogState(false, [])
    {
      fileExists := false;
      lines := [];
    }

    /** A log file as an earlier run left it. */
    constructor Restore(s: LogState)
      requires ValidLog(s)
      ensures Valid() && State() == s
    {
      fileExists := s.fileExists;
      lines := s.lines;
    }

    /** `save_prediction(data)`: append the frame's rows in CSV_HEADER order. */
    method Save(data: Frame) returns (r: Result<(), Error>)
      requires Valid() && WellFormed(data)
      modifies this
      ensures Valid()
      ensures SavePrediction(old(State()), data).Ok? ==> r.Ok? && State() == SavePrediction(old(State()), data).value
      ensures SavePrediction(old(State()), data).Err? ==>
        r == Err(SavePrediction(old(State()), data).error) && State() == old(State())
    {
      var missing := MissingFrom(CSV_HEADER, data.columns);
      if missing != [] {
        return Err(KeyError(missing));
      }
      if !fileExists {
        lines := [Header(CSV_HEADER)];
        fileExists := true;
      }
      lines := lines + RecordLines(data.rows);
      r := Ok(());
    }
  }
}
