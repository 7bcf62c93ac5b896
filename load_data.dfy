/** The bulk CSV loader: how a CSV column name becomes a PostgreSQL column
    name, how a pandas dtype becomes a column type, the column-definition list
    of the CREATE TABLE statement, the chunking of the INSERTs, the result
    record of one file, the folder loop and the counts of the summary report.

    The database is an oracle (`Database`): it decides whether the CREATE
    TABLE, and each chunk's INSERT, goes through. Reading a CSV file is an
    input too: a `CsvFile` carries the DataFrame `pd.read_csv` would build, or
    the exception it would raise. `pd.to_datetime` and `float` on a sample
    value are not modelled; a `Sample` records whether each would succeed. */
module LoadData {
  import opened Shared
  import opened Ascii

  // ---------------------------------------------------------------------
  // clean_column_name

  /** `str.replace` for a one-character pattern and replacement. */
  function ReplaceChar(s: string, from: char, to: char): (r: string)
    ensures |r| == |s|
    ensures forall i :: 0 <= i < |s| ==> r[i] == if s[i] == from then to else s[i]
  {
    if s == [] then [] else [if s[0] == from then to else s[0]] + ReplaceChar(s[1..], from, to)
  }

  /** `.replace(" ", "_").replace("-", "_").replace(".", "_")` */
  function ReplaceSeparators(s: string): string {
    ReplaceChar(ReplaceChar(ReplaceChar(s, ' ', '_'), '-', '_'), '.', '_')
  }

  predicate IsKept(c: char) { IsAlnum(c) || c == '_' }

  /** `"".join(c for c in cleaned if c.isalnum() or c == "_")` */
  function KeepIdentifierChars(s: string): (r: string)
    ensures |r| <= |s|
    ensures forall i :: 0 <= i < |r| ==> IsKept(r[i])
  {
    if s == [] then [] else (if IsKept(s[0]) then [s[0]] else []) + KeepIdentifierChars(s[1..])
  }

  predicate IsIdentifierChar(c: char) { IsLower(c) || IsDigit(c) || c == '_' }

  /** A name PostgreSQL accepts unquoted: lower-case letters, digits and
      underscores, not empty, not starting with a digit. */
  predicate IsIdentifier(s: string) {
    |s| > 0 && !IsDigit(s[0]) && forall i :: 0 <= i < |s| ==> IsIdentifierChar(s[i])
  }

  lemma LowerOfKept(s: string)
    requires forall i :: 0 <= i < |s| ==> IsKept(s[i])
    ensures forall i :: 0 <= i < |Lower(s)| ==> IsIdentifierChar(Lower(s)[i])
  {
  }

  /** `clean_column_name` */
  function CleanColumnName(column: string): (r: string)
    ensures IsIdentifier(r)
  {
    var kept := KeepIdentifierChars(ReplaceSeparators(column));
    var prefixed := if kept != [] && IsDigit(kept[0]) then "col_" + kept else kept;
    var named := if prefixed == [] then "unnamed_column" else prefixed;
    assert forall i :: 0 <= i < |named| ==> IsKept(named[i]) by {
      if kept != [] && IsDigit(kept[0]) {
        assert forall i :: 0 <= i < |kept| ==> prefixed[i + 4] == kept[i];
      }
    }
    LowerOfKept(named);
    Lower(named)
  }

  /** What one character of a column name contributes to the cleaned name:
      space, `-` and `.` become `_`, letters are lower-cased, digits and `_`
      stay, and everything else is dropped. */
  function SanitizeChar(c: char): string {
    if c == ' ' || c == '-' || c == '.' then "_"
    else if IsAlnum(c) then [ToLower(c)]
    else if c == '_' then "_"
    else []
  }

  /** The cleaned body of a name, one character at a time, in order. */
  function Sanitize(s: string): string {
    if s == [] then [] else SanitizeChar(s[0]) + Sanitize(s[1..])
  }

  function SeparatorToUnderscore(c: char): char {
    if c == ' ' || c == '-' || c == '.' then '_' else c
  }

  lemma ReplaceSeparatorsCons(s: string)
    requires s != []
    ensures ReplaceSeparators(s) == [SeparatorToUnderscore(s[0])] + ReplaceSeparators(s[1..])
  {
    var r, r' := ReplaceSeparators(s), ReplaceSeparators(s[1..]);
    assert |r| == |s| && |r'| == |s| - 1;
    forall i | 0 <= i < |s|
      ensures r[i] == ([SeparatorToUnderscore(s[0])] + r')[i]
    {
      if i > 0 { assert s[1..][i - 1] == s[i]; }
    }
  }

  lemma KeepCons(c: char, s: string)
    ensures KeepIdentifierChars([c] + s) == (if IsKept(c) then [c] else []) + KeepIdentifierChars(s)
  {
    assert ([c] + s)[1..] == s;
  }

  lemma LowerAppend(a: string, b: string)
    ensures Lower(a + b) == Lower(a) + Lower(b)
  {
  }

  /** Replacing, filtering and lower-casing, as `clean_column_name` does them
      one after the other, is the per-character sanitising above. */
  lemma {:induction false} PipelineIsSanitize(s: string)
    ensures Lower(KeepIdentifierChars(ReplaceSeparators(s))) == Sanitize(s)
  {
    if s != [] {
      var u := SeparatorToUnderscore(s[0]);
      ReplaceSeparatorsCons(s);
      KeepCons(u, ReplaceSeparators(s[1..]));
      var head := if IsKept(u) then [u] else [];
      LowerAppend(head, KeepIdentifierChars(ReplaceSeparators(s[1..])));
      PipelineIsSanitize(s[1..]);
      assert Lower(head) == SanitizeChar(s[0]);
    }
  }

  /** `clean_column_name` is the sanitised name, prefixed with `col_` when it
      starts with a digit and replaced by `unnamed_column` when it is empty. */
  lemma CleanColumnNameIsSanitized(column: string)
    ensures var body := Sanitize(column);
      CleanColumnName(column) ==
        if body == [] then "unnamed_column"
        else if IsDigit(body[0]) then "col_" + body
        else body
  {
    var kept := KeepIdentifierChars(ReplaceSeparators(column));
    PipelineIsSanitize(column);
    var body := Sanitize(column);
    assert |kept| == |body|;
    if kept != [] {
      assert body[0] == ToLower(kept[0]);
      if IsDigit(kept[0]) {
        LowerAppend("col_", kept);
        assert Lower("col_") == "col_";
      }
    } else {
      assert Lower("unnamed_column") == "unnamed_column";
    }
  }

  lemma {:induction false} SanitizeFixesIdentifierChars(s: string)
    requires forall i :: 0 <= i < |s| ==> IsIdentifierChar(s[i])
    ensures Sanitize(s) == s
  {
    if s != [] {
      assert SanitizeChar(s[0]) == [s[0]];
      SanitizeFixesIdentifierChars(s[1..]);
    }
  }

  /** A name that is already an identifier is left as it is. */
  lemma CleanColumnNameFixesIdentifiers(s: string)
    requires IsIdentifier(s)
    ensures CleanColumnName(s) == s
  {
    SanitizeFixesIdentifierChars(s);
    CleanColumnNameIsSanitized(s);
  }

  /** Cleaning twice is cleaning once: `load_dataframe` cleans the DataFrame's
      columns and `create_table` cleans them again, to the same names. */
  lemma CleanColumnNameIdempotent(column: string)
    ensures CleanColumnName(CleanColumnName(column)) == CleanColumnName(column)
  {
    CleanColumnNameFixesIdentifiers(CleanColumnName(column));
  }

  lemma {:induction false} SanitizeAppend(a: string, b: string)
    ensures Sanitize(a + b) == Sanitize(a) + Sanitize(b)
  {
    if a == [] {
      assert a + b == b;
    } else {
      assert (a + b)[0] == a[0];
      assert (a + b)[1..] == a[1..] + b;
      SanitizeAppend(a[1..], b);
    }
  }

  /** Cleaning is not injective: headers that differ only in which
      separator (space, `-`, `.` or `_`) joins two parts collide. */
  lemma CleanColumnNameMergesSeparators(a: string, b: string, sep: char)
    requires sep == ' ' || sep == '-' || sep == '.'
    ensures CleanColumnName(a + [sep] + b) == CleanColumnName(a + "_" + b)
  {
    SanitizeAppend(a + [sep], b);
    SanitizeAppend(a, [sep]);
    SanitizeAppend(a + "_", b);
    SanitizeAppend(a, "_");
    assert [sep][1..] == [] && "_"[1..] == [];
    assert Sanitize([sep]) == "_" == Sanitize("_");
    CleanColumnNameIsSanitized(a + [sep] + b);
    CleanColumnNameIsSanitized(a + "_" + b);
  }

  // ---------------------------------------------------------------------
  // get_postgres_type

  /** The non-null value `create_table` hands over as `sample_data`
      (`df[col].dropna().iloc[0]`): its `str()`, and whether
      `pd.to_datetime` and `float` would accept it. */
  datatype Sample = Sample(text: string, parsesAsDate: bool, parsesAsNumber: bool)

  /** The PostgreSQL column types the loader emits. */
  datatype PgType = Text | BigInt | Integer | DoublePrecision | Real | Boolean | Timestamp

  /** The type's name as written into the CREATE TABLE statement. */
  function TypeName(t: PgType): string {
    match t
    case Text => "TEXT"
    case BigInt => "BIGINT"
    case Integer => "INTEGER"
    case DoublePrecision => "DOUBLE PRECISION"
    case Real => "REAL"
    case Boolean => "BOOLEAN"
    case Timestamp => "TIMESTAMP"
  }

  const TypeMapping: map<string, PgType> := map[
    "object" := Text,
    "string" := Text,
    "int64" := BigInt,
    "int32" := Integer,
    "float64" := DoublePrecision,
    "float32" := Real,
    "bool" := Boolean,
    "datetime64[ns]" := Timestamp,
    "category" := Text
  ]

  const BooleanWords: seq<string> := ["true", "false", "1", "0"]

  /** `get_postgres_type`: the table entry for the dtype's name (TEXT when it
      has none); for an `object` column with a sample, the sample decides. */
  function GetPostgresType(dtype: string, sample: Option<Sample>): (r: PgType)
    ensures dtype != "object" || sample.None? ==>
      r == if dtype in TypeMapping then TypeMapping[dtype] else Text
    ensures dtype !in TypeMapping ==> r == Text
    ensures dtype == "object" && sample.Some? ==>
      && (r == Timestamp <==> sample.value.parsesAsDate)
      && (r == DoublePrecision <==> !sample.value.parsesAsDate && sample.value.parsesAsNumber)
      && (r == Boolean <==>
            !sample.value.parsesAsDate && !sample.value.parsesAsNumber
            && Lower(sample.value.text) in BooleanWords)
      && (r == Text <==>
            !sample.value.parsesAsDate && !sample.value.parsesAsNumber
            && Lower(sample.value.text) !in BooleanWords)
  {
    var pgType := if dtype in TypeMapping then TypeMapping[dtype] else Text;
    if dtype == "object" && sample.Some? then
      if sample.value.parsesAsDate then Timestamp
      else if sample.value.parsesAsNumber then DoublePrecision
      else if Lower(sample.value.text) in BooleanWords then Boolean
      else Text
    else
      pgType
  }

  // ---------------------------------------------------------------------
  // DataFrames, table definitions and the database

  datatype Column = Column(name: string, dtype: string, sample: Option<Sample>)

  type Row = seq<Json>

  datatype DataFrame = DataFrame(columns: seq<Column>, rows: seq<Row>)

  /** One `"<name>" <type>` entry of the CREATE TABLE column list. */
  datatype ColumnDefinition = ColumnDefinition(name: string, pgType: PgType)

  /** The definition `create_table` gives one column: its cleaned name and the
      PostgreSQL type inferred from its dtype and first non-null value. */
  function DefineColumn(col: Column): ColumnDefinition {
    ColumnDefinition(CleanColumnName(col.name), GetPostgresType(col.dtype, col.sample))
  }

  function RenderDefinition(d: ColumnDefinition): string {
    "\"" + d.name + "\" " + TypeName(d.pgType)
  }

  /** `", ".join(parts)` */
  function Join(parts: seq<string>): string {
    if |parts| == 0 then ""
    else if |parts| == 1 then parts[0]
    else parts[0] + ", " + Join(parts[1..])
  }

  /** The table `create_table` asks for: its qualified name and its columns. */
  datatype TableDefinition = TableDefinition(table: string, columns: seq<ColumnDefinition>)

  /** The text between the parentheses of the CREATE TABLE statement. */
  function ColumnList(t: TableDefinition): string {
    Join(seq(|t.columns|, i requires 0 <= i < |t.columns| => RenderDefinition(t.columns[i])))
  }

  /** One chunk's INSERT: target table, column names, index of the first row
      and the rows. */
  datatype Insert = Insert(table: string, columns: seq<string>, first: nat, rows: seq<Row>)

  /** The database's answers: whether a CREATE TABLE, and whether a chunk's
      INSERT (with its commit), goes through. */
  datatype Database = Database(acceptsCreate: TableDefinition -> bool, acceptsInsert: Insert -> bool)

  function RowsOf(inserts: seq<Insert>): (r: seq<seq<Row>>)
    ensures |r| == |inserts|
    ensures forall k :: 0 <= k < |inserts| ==> r[k] == inserts[k].rows
  {
    seq(|inserts|, k requires 0 <= k < |inserts| => inserts[k].rows)
  }

  function Min(a: int, b: int): int { if a <= b then a else b }

  function CountChar(s: string, c: char): nat {
    if s == [] then 0 else (if s[0] == c then 1 else 0) + CountChar(s[1..], c)
  }

  lemma {:induction false} CountCharAppend(a: string, b: string, c: char)
    ensures CountChar(a + b, c) == CountChar(a, c) + CountChar(b, c)
  {
    if a == [] {
      assert a + b == b;
    } else {
      assert (a + b)[0] == a[0];
      assert (a + b)[1..] == a[1..] + b;
      CountCharAppend(a[1..], b, c);
    }
  }

  lemma {:induction false} CountCharAbsent(s: string, c: char)
    requires forall i :: 0 <= i < |s| ==> s[i] != c
    ensures CountChar(s, c) == 0
  {
    if s != [] { CountCharAbsent(s[1..], c); }
  }

  /** Joining comma-free parts puts exactly one comma between neighbours. */
  lemma {:induction false} JoinCommaCount(parts: seq<string>)
    requires forall k, i :: 0 <= k < |parts| && 0 <= i < |parts[k]| ==> parts[k][i] != ','
    ensures CountChar(Join(parts), ',') == if parts == [] then 0 else |parts| - 1
  {
    if |parts| == 1 {
      CountCharAbsent(parts[0], ',');
    } else if |parts| > 1 {
      var rest := Join(parts[1..]);
      CountCharAbsent(parts[0], ',');
      assert Join(parts) == parts[0] + (", " + rest);
      CountCharAppend(parts[0], ", " + rest, ',');
      CountCharAppend(", ", rest, ',');
      assert CountChar(", ", ',') == 1 by {
        assert ", "[1..] == " ";
        assert " "[1..] == "";
      }
      JoinCommaCount(parts[1..]);
    }
  }

  /** A rendered definition of a cleaned name and a mapped type holds no comma. */
  lemma DefinitionHasNoComma(d: ColumnDefinition, i: nat)
    requires IsIdentifier(d.name)
    requires i < |RenderDefinition(d)|
    ensures RenderDefinition(d)[i] != ','
  {
    var s := RenderDefinition(d);
    if 1 <= i < 1 + |d.name| {
      assert s[i] == d.name[i - 1];
    } else if i >= 3 + |d.name| {
      assert s[i] == TypeName(d.pgType)[i - 3 - |d.name|];
    }
  }

  /** The column list of a definition made of cleaned names and mapped types
      has one entry per column: exactly one comma between neighbours. */
  lemma ColumnListHasOneEntryPerColumn(t: TableDefinition)
    requires forall k :: 0 <= k < |t.columns| ==>
      IsIdentifier(t.columns[k].name)
    ensures CountChar(ColumnList(t), ',') == if t.columns == [] then 0 else |t.columns| - 1
  {
    var parts := seq(|t.columns|, i requires 0 <= i < |t.columns| => RenderDefinition(t.columns[i]));
    forall k, i | 0 <= k < |parts| && 0 <= i < |parts[k]| ensures parts[k][i] != ',' {
      DefinitionHasNoComma(t.columns[k], i);
    }
    JoinCommaCount(parts);
  }

  /** The INSERT target as `load_dataframe` writes it: the table name as
      given, not cleaned. */
  function InsertTargetAsWritten(schema: string, tableName: string): string {
    schema + "." + tableName
  }

  /** The INSERT of `load_dataframe` reaches the table `create_table` made
      only when the file stem is already a cleaned name. */
  lemma InsertTargetAsWrittenMatchesOnlyIdentifiers(schema: string, tableName: string)
    ensures InsertTargetAsWritten(schema, tableName) == schema + "." + CleanColumnName(tableName)
            <==> IsIdentifier(tableName)
  {
    var p := schema + ".";
    if IsIdentifier(tableName) {
      CleanColumnNameFixesIdentifiers(tableName);
    }
    if InsertTargetAsWritten(schema, tableName) == p + CleanColumnName(tableName) {
      assert (p + tableName)[|p|..] == tableName;
      assert (p + CleanColumnName(tableName))[|p|..] == CleanColumnName(tableName);
    }
  }

  /** A file stem with a `-` in it, such as `sales-2023`: the table is
      created as `public.sales_2023` but the rows are sent to
      `public.sales-2023`. */
  lemma InsertTargetAsWrittenMissesCreatedTable(schema: string, tableName: string)
    requires '-' in tableName
    ensures InsertTargetAsWritten(schema, tableName) != schema + "." + CleanColumnName(tableName)
  {
    var i :| 0 <= i < |tableName| && tableName[i] == '-';
    assert !IsIdentifierChar(tableName[i]);
    InsertTargetAsWrittenMatchesOnlyIdentifiers(schema, tableName);
  }

  // ---------------------------------------------------------------------
  // Files, results and the report

  /** A file the folder's glob matched: `name`, `str(path)`, `stem`, and what
      `pd.read_csv` makes of it. */
  datatype CsvFile = CsvFile(name: string, path: string, stem: string, contents: Outcome<DataFrame>)

  /** The result dict of `process_csv_file`, without `processing_time`;
      `tableName` is None when the key is absent. */
  datatype FileResult = FileResult(
    fileName: string,
    filePath: string,
    success: bool,
    rowsLoaded: nat,
    error: Option<string>,
    tableName: Option<string>)

  datatype Folder = Missing | NotADirectory | Directory(matches: seq<CsvFile>)

  /** `sum(1 for r in results if r["success"])` */
  function CountSuccessful(results: seq<FileResult>): (n: nat)
    ensures n <= |results|
  {
    if results == [] then 0
    else CountSuccessful(results[..|results| - 1]) + (if results[|results| - 1].success then 1 else 0)
  }

  /** `sum(1 for r in results if not r["success"])`, as `main` counts failures. */
  function CountFailed(results: seq<FileResult>): nat {
    if results == [] then 0
    else CountFailed(results[..|results| - 1]) + (if results[|results| - 1].success then 0 else 1)
  }

  /** `sum(r["rows_loaded"] for r in results if r["success"])` */
  function TotalRowsLoaded(results: seq<FileResult>): nat {
    if results == [] then 0
    else TotalRowsLoaded(results[..|results| - 1])
         + (if results[|results| - 1].success then results[|results| - 1].rowsLoaded else 0)
  }

  /** The sum of `rows_loaded` over every result. */
  function SumRowsLoaded(results: seq<FileResult>): nat {
    if results == [] then 0
    else SumRowsLoaded(results[..|results| - 1]) + results[|results| - 1].rowsLoaded
  }

  /** The failure count `generate_report` derives by subtraction agrees with
      the one `main` counts directly. */
  lemma {:induction false} SuccessfulPlusFailed(results: seq<FileResult>)
    ensures CountSuccessful(results) + CountFailed(results) == |results|
  {
    if results != [] { SuccessfulPlusFailed(results[..|results| - 1]); }
  }

  /** Failed results carry no rows, so the success filter in the row total
      changes nothing. */
  lemma {:induction false} FailedResultsAddNoRows(results: seq<FileResult>)
    requires forall i :: 0 <= i < |results| ==> !results[i].success ==> results[i].rowsLoaded == 0
    ensures TotalRowsLoaded(results) == SumRowsLoaded(results)
  {
    if results != [] { FailedResultsAddNoRows(results[..|results| - 1]); }
  }

  /** One line of the detailed part of the report. */
  datatype ReportLine =
    | Loaded(fileName: string, rowsLoaded: nat, tableName: string)
    | NotLoaded(fileName: string, error: Option<string>)

  /** The detail line of one result. */
  function DetailLine(r: FileResult): ReportLine
    requires r.success ==> r.tableName.Some?
  {
    if r.success then Loaded(r.fileName, r.rowsLoaded, r.tableName.value) else NotLoaded(r.fileName, r.error)
  }

  /** One line of the "Failed Files" part. */
  datatype FailureLine = FailureLine(fileName: string, error: Option<string>)

  /** The report's content, without the time stamps, the timings and the
      number formatting. */
  datatype Report = Report(
    totalFiles: nat,
    successfulFiles: nat,
    failedFiles: int,
    totalRows: nat,
    details: seq<ReportLine>,
    failures: seq<FailureLine>)

  function FailureLines(results: seq<FileResult>): seq<FailureLine> {
    if results == [] then []
    else
      var r := results[|results| - 1];
      FailureLines(results[..|results| - 1]) + (if r.success then [] else [FailureLine(r.fileName, r.error)])
  }

  lemma {:induction false} FailureLinesCount(results: seq<FileResult>)
    ensures |FailureLines(results)| == CountFailed(results)
  {
    if results != [] { FailureLinesCount(results[..|results| - 1]); }
  }

  /** The "Failed Files" lines name exactly the failed files, in order. */
  lemma {:induction false} FailureLinesNameFailedFiles(results: seq<FileResult>, line: FailureLine)
    ensures line in FailureLines(results) <==>
      exists i :: 0 <= i < |results| && !results[i].success
                  && line == FailureLine(results[i].fileName, results[i].error)
  {
    if results != [] {
      var init := results[..|results| - 1];
      FailureLinesNameFailedFiles(init, line);
      if line in FailureLines(init) {
        var i :| 0 <= i < |init| && !init[i].success && line == FailureLine(init[i].fileName, init[i].error);
        assert results[i] == init[i];
      }
      forall i | 0 <= i < |init| ensures results[i] == init[i] { }
    }
  }

  function NameOf(col: Column): string { col.name }

  function DefinedName(d: ColumnDefinition): string { d.name }

  /** The names of the table's columns, in order. */
  function ColumnNames(t: TableDefinition): seq<string> {
    Map(DefinedName, t.columns)
  }

  /** A column under its cleaned name, as `load_dataframe` renames it. */
  function Renamed(col: Column): Column {
    col.(name := CleanColumnName(col.name))
  }

  /** Renaming the columns first leaves their definitions as they were,
      because cleaning an already cleaned name changes nothing. */
  lemma {:induction false} RenamingKeepsDefinitions(cols: seq<Column>)
    ensures Map(DefineColumn, Map(Renamed, cols)) == Map(DefineColumn, cols)
  {
    if cols != [] {
      var init, last := cols[..|cols| - 1], cols[|cols| - 1];
      assert cols == init + [last];
      RenamingKeepsDefinitions(init);
      CleanColumnNameIdempotent(last.name);
      MapSnoc(Renamed, init, last);
      MapSnoc(DefineColumn, Map(Renamed, init), Renamed(last));
      MapSnoc(DefineColumn, init, last);
    }
  }

  /** The renamed DataFrame's columns are the names of the columns defined
      from the original ones. */
  lemma {:induction false} RenamedNamesAreDefinedNames(cols: seq<Column>)
    ensures Map(NameOf, Map(Renamed, cols)) == Map(DefinedName, Map(DefineColumn, cols))
  {
    if cols != [] {
      var init, last := cols[..|cols| - 1], cols[|cols| - 1];
      assert cols == init + [last];
      RenamedNamesAreDefinedNames(init);
      MapSnoc(Renamed, init, last);
      MapSnoc(NameOf, Map(Renamed, init), Renamed(last));
      MapSnoc(DefineColumn, init, last);
      MapSnoc(DefinedName, Map(DefineColumn, init), DefineColumn(last));
    }
  }

  /** Chunk `k` of `rows` for a positive chunk size: the rows from `k * c`
      on, at most `c` of them, and at least one. */
  predicate IsChunk(insert: Insert, k: nat, rows: seq<Row>, c: int)
    requires c > 0
  {
    && insert.first == k * c
    && insert.first < |rows|
    && insert.rows == rows[insert.first..Min(insert.first + c, |rows|)]
    && 0 < |insert.rows| <= c
  }

  /** What the chunk loop of `load_dataframe` leaves behind for `rows`:
      `inserted` are the committed INSERTs, all into `table` with the columns
      `names`. A zero step raises (`ok` false, nothing sent); a negative step
      is an empty range (`ok`, nothing sent). For a positive step the
      committed chunks are consecutive and cover a prefix of the rows; `ok`
      holds exactly when they cover all of them, and otherwise the next
      chunk is the one the database refused. */
  predicate InsertsInChunks(table: string, names: seq<string>, rows: seq<Row>, chunkSize: int,
                            db: Database, ok: bool, inserted: seq<Insert>)
  {
    && (chunkSize <= 0 ==> inserted == [] && ok == (chunkSize < 0))
    && (forall k :: 0 <= k < |inserted| ==>
          inserted[k].table == table && inserted[k].columns == names && db.acceptsInsert(inserted[k]))
    && (chunkSize > 0 ==>
          && (forall k :: 0 <= k < |inserted| ==> IsChunk(inserted[k], k, rows, chunkSize))
          && Concat(RowsOf(inserted)) == rows[..Min(|inserted| * chunkSize, |rows|)]
          && (ok <==> Concat(RowsOf(inserted)) == rows)
          && (!ok ==>
                var next := |inserted| * chunkSize;
                && next < |rows|
                && !db.acceptsInsert(Insert(table, names, next, rows[next..Min(next + chunkSize, |rows|)]))))
  }

  /** The committed chunks so far: consecutive, from the first row on. */
  predicate ChunksSoFar(table: string, names: seq<string>, rows: seq<Row>, chunkSize: int,
                        db: Database, inserted: seq<Insert>)
    requires chunkSize > 0
  {
    && (forall k :: 0 <= k < |inserted| ==>
          inserted[k].table == table && inserted[k].columns == names && db.acceptsInsert(inserted[k]))
    && (forall k :: 0 <= k < |inserted| ==> IsChunk(inserted[k], k, rows, chunkSize))
    && Concat(RowsOf(inserted)) == rows[..Min(|inserted| * chunkSize, |rows|)]
  }

  /** Committing the next chunk keeps the committed chunks consecutive. */
  lemma NextChunk(table: string, names: seq<string>, rows: seq<Row>, chunkSize: int,
                  db: Database, inserted: seq<Insert>, insert: Insert)
    requires chunkSize > 0 && ChunksSoFar(table, names, rows, chunkSize, db, inserted)
    requires |inserted| * chunkSize < |rows|
    requires insert == Insert(table, names, |inserted| * chunkSize,
                              rows[|inserted| * chunkSize..Min(|inserted| * chunkSize + chunkSize, |rows|)])
    requires db.acceptsInsert(insert)
    ensures ChunksSoFar(table, names, rows, chunkSize, db, inserted + [insert])
    ensures (|inserted| + 1) * chunkSize == |inserted| * chunkSize + chunkSize
  {
    var next := inserted + [insert];
    assert forall k :: 0 <= k < |inserted| ==> next[k] == inserted[k];
    NextChunkIsChunk(rows, chunkSize, inserted, insert);
    NextChunkRows(rows, chunkSize, inserted, insert);
  }

  lemma NextChunkIsChunk(rows: seq<Row>, chunkSize: int, inserted: seq<Insert>, insert: Insert)
    requires chunkSize > 0
    requires forall k :: 0 <= k < |inserted| ==> IsChunk(inserted[k], k, rows, chunkSize)
    requires |inserted| * chunkSize < |rows|
    requires insert.first == |inserted| * chunkSize
    requires insert.rows == rows[insert.first..Min(insert.first + chunkSize, |rows|)]
    ensures forall k :: 0 <= k < |inserted| + 1 ==> IsChunk((inserted + [insert])[k], k, rows, chunkSize)
  {
    var next := inserted + [insert];
    assert forall k :: 0 <= k < |inserted| ==> next[k] == inserted[k];
    assert IsChunk(insert, |inserted|, rows, chunkSize);
  }

  lemma NextChunkRows(rows: seq<Row>, chunkSize: int, inserted: seq<Insert>, insert: Insert)
    requires chunkSize > 0
    requires Concat(RowsOf(inserted)) == rows[..Min(|inserted| * chunkSize, |rows|)]
    requires |inserted| * chunkSize < |rows|
    requires insert.rows == rows[|inserted| * chunkSize..Min(|inserted| * chunkSize + chunkSize, |rows|)]
    ensures (|inserted| + 1) * chunkSize == |inserted| * chunkSize + chunkSize
    ensures Concat(RowsOf(inserted + [insert])) == rows[..Min((|inserted| + 1) * chunkSize, |rows|)]
  {
    var i := |inserted| * chunkSize;
    assert (|inserted| + 1) * chunkSize == i + chunkSize;
    ConcatSnoc(RowsOf(inserted), insert.rows);
    assert RowsOf(inserted + [insert]) == RowsOf(inserted) + [insert.rows];
    assert rows[..i] + insert.rows == rows[..Min(i + chunkSize, |rows|)];
  }

  /** The INSERT of chunk `k` of `rows` for a positive chunk size. */
  function ChunkAt(table: string, names: seq<string>, rows: seq<Row>, c: int, k: nat): Insert
    requires c > 0 && k * c < |rows|
  {
    Insert(table, names, k * c, rows[k * c..Min(k * c + c, |rows|)])
  }

  /** Whether a chunk loop over `rows` can succeed: a zero step never does, a
      negative one always does, and a positive one does exactly when the
      database accepts every chunk of the rows. */
  predicate AllChunksAccepted(table: string, names: seq<string>, rows: seq<Row>, chunkSize: int, db: Database) {
    && chunkSize != 0
    && (chunkSize > 0 ==>
          forall k: nat :: k < |rows| && k * chunkSize < |rows| ==>
            db.acceptsInsert(ChunkAt(table, names, rows, chunkSize, k)))
  }

  lemma MulLess(k: nat, m: nat, c: int)
    requires c > 0 && k * c < m * c
    ensures k < m
  {
  }

  lemma MulAtLeast(m: nat, c: int)
    requires c > 0
    ensures m <= m * c
  {
  }

  /** Committed chunks that reach past the last row are every chunk of the
      rows, so each chunk was accepted. */
  lemma CoveredChunksAccepted(table: string, names: seq<string>, rows: seq<Row>, c: int,
                              db: Database, inserted: seq<Insert>)
    requires c > 0
    requires forall k :: 0 <= k < |inserted| ==>
      inserted[k].table == table && inserted[k].columns == names && db.acceptsInsert(inserted[k])
    requires forall k :: 0 <= k < |inserted| ==> IsChunk(inserted[k], k, rows, c)
    requires |rows| <= |inserted| * c
    ensures AllChunksAccepted(table, names, rows, c, db)
  {
    forall k: nat | k < |rows| && k * c < |rows|
      ensures db.acceptsInsert(ChunkAt(table, names, rows, c, k))
    {
      MulLess(k, |inserted|, c);
      assert IsChunk(inserted[k], k, rows, c);
    }
  }

  /** The chunk loop succeeds exactly when every chunk is accepted: it stops
      at the first refused chunk, and only there. */
  lemma ChunksSucceedExactly(table: string, names: seq<string>, rows: seq<Row>, chunkSize: int,
                             db: Database, ok: bool, inserted: seq<Insert>)
    requires InsertsInChunks(table, names, rows, chunkSize, db, ok, inserted)
    ensures ok == AllChunksAccepted(table, names, rows, chunkSize, db)
  {
    if chunkSize > 0 {
      var m := |inserted|;
      if ok {
        assert |Concat(RowsOf(inserted))| == Min(m * chunkSize, |rows|);
        CoveredChunksAccepted(table, names, rows, chunkSize, db, inserted);
      } else {
        MulAtLeast(m, chunkSize);
        assert !db.acceptsInsert(ChunkAt(table, names, rows, chunkSize, m));
      }
    }
  }

  /** The chunk loop of `load_dataframe`: `range(0, len(rows), chunkSize)`,
      one INSERT and commit per chunk, stopping at the first chunk the
      database refuses. */
  method InsertChunks(table: string, names: seq<string>, rows: seq<Row>, chunkSize: int, db: Database)
    returns (ok: bool, inserted: seq<Insert>)
    ensures InsertsInChunks(table, names, rows, chunkSize, db, ok, inserted)
  {
    inserted := [];
    if chunkSize == 0 {
      // range() with a zero step raises ValueError, caught as a failed load
      return false, inserted;
    }
    if chunkSize < 0 {
      // range(0, n, negative step) is empty
      return true, inserted;
    }
    var totalRows := |rows|;
    var i := 0;
    while i < totalRows
      invariant i == |inserted| * chunkSize
      invariant ChunksSoFar(table, names, rows, chunkSize, db, inserted)
      decreases totalRows - i
    {
      var chunk := rows[i..Min(i + chunkSize, totalRows)];
      var insert := Insert(table, names, i, chunk);
      if !db.acceptsInsert(insert) {
        assert |Concat(RowsOf(inserted))| == i < |rows|;
        return false, inserted;
      }
      NextChunk(table, names, rows, chunkSize, db, inserted, insert);
      inserted := inserted + [insert];
      i := i + chunkSize;
    }
    assert rows[..Min(i, totalRows)] == rows;
    ok := true;
  }

  class BulkCsvLoader {
    const schema: string

    constructor(schema: string)
      ensures this.schema == schema
    {
      this.schema := schema;
    }

    /** The table `load_dataframe` defines for a file with stem `stem`. */
    function TableFor(stem: string, df: DataFrame): TableDefinition {
      TableDefinition(schema + "." + CleanColumnName(stem), Map(DefineColumn, df.columns))
    }

    /** What `process_csv_file` records for `file` when it loads in chunks of
        `chunkSize` into `db`: a file that was read succeeds exactly when the
        database accepts its table and every chunk of its rows. */
    predicate Describes(r: FileResult, file: CsvFile, chunkSize: int, db: Database) {
      && r.fileName == file.name
      && r.filePath == file.path
      && (file.contents.Raised? ==> !r.success && r.error == Some(file.contents.message))
      && (file.contents.Returned? ==> r.error == None)
      && (file.contents.Returned? ==>
            var d := TableFor(file.stem, file.contents.value);
            r.success == (db.acceptsCreate(d)
                          && AllChunksAccepted(d.table, ColumnNames(d), file.contents.value.rows, chunkSize, db)))
      && (!r.success ==> r.rowsLoaded == 0 && r.tableName == None)
      && (r.success ==>
            && file.contents.Returned?
            && r.rowsLoaded == |file.contents.value.rows|
            && r.tableName == Some(schema + "." + CleanColumnName(file.stem)))
    }

    /** `create_table`: builds one definition per column, in column order, and
        asks the database to create `schema.<cleaned table name>`. */
    method CreateTable(tableName: string, df: DataFrame, db: Database)
      returns (ok: bool, definition: TableDefinition)
      ensures definition.table == schema + "." + CleanColumnName(tableName)
      ensures definition.columns == Map(DefineColumn, df.columns)
      ensures ok == db.acceptsCreate(definition)
    {
      var table := CleanColumnName(tableName);
      var columns := MapEach(DefineColumn, df.columns);
      definition := TableDefinition(schema + "." + table, columns);
      ok := db.acceptsCreate(definition);
    }

    /** `load_dataframe`: renames the columns to their cleaned names, creates
        the table and, when that succeeds, inserts the rows chunk by chunk.
        The rows go to the table that was created (the source sends them to
        the uncleaned name; see `InsertTargetAsWritten`). */
    method LoadDataFrame(df: DataFrame, tableName: string, chunkSize: int, db: Database)
      returns (ok: bool, definition: TableDefinition, inserted: seq<Insert>)
      ensures definition.table == schema + "." + CleanColumnName(tableName)
      ensures definition.columns == Map(DefineColumn, df.columns)
      ensures !db.acceptsCreate(definition) ==> !ok && inserted == []
      ensures db.acceptsCreate(definition) ==>
        InsertsInChunks(definition.table, ColumnNames(definition), df.rows, chunkSize, db, ok, inserted)
    {
      var renamed := DataFrame(Map(Renamed, df.columns), df.rows);
      var created;
      created, definition := CreateTable(tableName, renamed, db);
      RenamingKeepsDefinitions(df.columns);
      RenamedNamesAreDefinedNames(df.columns);
      if !created {
        return false, definition, [];
      }
      var names := Map(NameOf, renamed.columns);
      ok, inserted := InsertChunks(definition.table, names, df.rows, chunkSize, db);
    }

    /** `process_csv_file`: the result record of one file. `inserted` are the
        chunks committed on the way. */
    method ProcessCsvFile(file: CsvFile, chunkSize: int, db: Database)
      returns (result: FileResult, inserted: seq<Insert>)
      ensures Describes(result, file, chunkSize, db)
      ensures file.contents.Raised? ==>
        result == FileResult(file.name, file.path, false, 0, Some(file.contents.message), None)
        && inserted == []
      ensures result.success ==> chunkSize != 0
      ensures result.success && chunkSize > 0 ==> Concat(RowsOf(inserted)) == file.contents.value.rows
      ensures result.success && chunkSize < 0 ==> inserted == []
      ensures forall k :: 0 <= k < |inserted| ==>
        inserted[k].table == schema + "." + CleanColumnName(file.stem) && db.acceptsInsert(inserted[k])
      ensures file.contents.Returned? ==>
        var d := TableFor(file.stem, file.contents.value);
        && (!db.acceptsCreate(d) ==> !result.success && inserted == [])
        && (db.acceptsCreate(d) ==>
              InsertsInChunks(d.table, ColumnNames(d), file.contents.value.rows, chunkSize, db, result.success, inserted))
    {
      result := FileResult(file.name, file.path, false, 0, None, None);
      inserted := [];
      match file.contents {
        case Raised(e) =>
          result := result.(error := Some(e));
        case Returned(df) =>
          var tableName := file.stem;
          var ok, definition;
          ok, definition, inserted := LoadDataFrame(df, tableName, chunkSize, db);
          assert definition == TableFor(tableName, df);
          if db.acceptsCreate(definition) {
            ChunksSucceedExactly(definition.table, ColumnNames(definition), df.rows, chunkSize, db, ok, inserted);
          }
          if ok {
            result := result.(success := true, rowsLoaded := |df.rows|,
                              tableName := Some(schema + "." + CleanColumnName(tableName)));
          }
      }
    }

    /** `process_folder`: no results for a missing path, a path that is not a
        directory, or a directory without matches; otherwise one result per
        matched file, in glob order. `successfulFiles` is the running count
        the progress log shows. */
    method ProcessFolder(folder: Folder, chunkSize: int, db: Database)
      returns (results: seq<FileResult>, successfulFiles: nat)
      ensures !folder.Directory? ==> results == []
      ensures folder.Directory? ==> |results| == |folder.matches|
      ensures folder.Directory? ==> forall i :: 0 <= i < |results| ==> Describes(results[i], folder.matches[i], chunkSize, db)
      ensures successfulFiles == CountSuccessful(results)
    {
      results := [];
      successfulFiles := 0;
      if !folder.Directory? {
        return;
      }
      var csvFiles := folder.matches;
      if csvFiles == [] {
        return;
      }
      var i := 0;
      while i < |csvFiles|
        invariant i <= |csvFiles|
        invariant |results| == i
        invariant forall j :: 0 <= j < i ==> Describes(results[j], csvFiles[j], chunkSize, db)
        invariant successfulFiles == CountSuccessful(results)
      {
        var result, _ := ProcessCsvFile(csvFiles[i], chunkSize, db);
        assert (results + [result])[..|results|] == results;
        results := results + [result];
        if result.success {
          successfulFiles := successfulFiles + 1;
        }
        i := i + 1;
      }
    }

    /** `generate_report`: the summary counts, one detail line per result and
        the list of failed files. An empty `results` divides by zero; a
        successful result without a table name is a missing key. */
    method GenerateReport(results: seq<FileResult>) returns (report: Outcome<Report>)
      ensures results == [] ==> report == Raised("division by zero")
      ensures report.Returned? ==>
        && results != []
        && report.value.totalFiles == |results|
        && report.value.successfulFiles == CountSuccessful(results)
        && report.value.failedFiles == CountFailed(results)
        && report.value.successfulFiles + report.value.failedFiles == report.value.totalFiles
        && report.value.totalRows == TotalRowsLoaded(results)
        && |report.value.details| == |results|
        && (forall i :: 0 <= i < |results| ==>
              (results[i].success ==> results[i].tableName.Some?) && report.value.details[i] == DetailLine(results[i]))
        && report.value.failures == FailureLines(results)
      ensures results != [] && (forall i :: 0 <= i < |results| ==> results[i].success ==> results[i].tableName.Some?)
              ==> report.Returned?
      ensures results != [] && report.Raised? ==> report.message == "'table_name'"
    {
      var totalFiles := |results|;
      var successfulFiles := CountSuccessful(results);
      var failedFiles := totalFiles - successfulFiles;
      var totalRows := TotalRowsLoaded(results);
      if totalFiles == 0 {
        return Raised("division by zero");
      }
      SuccessfulPlusFailed(results);
      var details: seq<ReportLine> := [];
      var k := 0;
      while k < |results|
        invariant k <= |results|
        invariant |details| == k
        invariant forall i :: 0 <= i < k ==>
          (results[i].success ==> results[i].tableName.Some?) && details[i] == DetailLine(results[i])
      {
        var result := results[k];
        if result.success {
          if result.tableName.None? {
            return Raised("'table_name'");
          }
          details := details + [Loaded(result.fileName, result.rowsLoaded, result.tableName.value)];
        } else {
          details := details + [NotLoaded(result.fileName, result.error)];
        }
        k := k + 1;
      }
      var failures: seq<FailureLine> := [];
      if failedFiles > 0 {
        k := 0;
        while k < |results|
          invariant k <= |results|
          invariant failures == FailureLines(results[..k])
        {
          assert results[..k + 1][..k] == results[..k];
          if !results[k].success {
            failures := failures + [FailureLine(results[k].fileName, results[k].error)];
          }
          k := k + 1;
        }
        assert results[..k] == results;
      } else {
        FailureLinesCount(results);
      }
      report := Returned(Report(totalFiles, successfulFiles, failedFiles, totalRows, details, failures));
    }
  }
}
