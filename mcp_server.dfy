/** The PostgreSQL tool server: three tools that turn a database outcome into a
    reply dict, and the SELECT-only guard of `execute_query`, which decides
    whether a query reaches the database at all. The connection pool, the
    cursor and the SQL text the database runs are outside the model: each tool
    receives what the database would give back (rows, or the exception it
    raised) as an `Outcome`. */
module McpServer {
  import opened Shared
  import opened Ascii

  /** A reply dict: key to JSON value. */
  type Reply = map<string, Json>

  /** One row of a `RealDictCursor` result, `dict(row)`. */
  type Row = map<string, Json>

  const RejectedMessage: string := "Only SELECT queries are allowed"
  const TablesFailurePrefix: string := "Database connection failed: "
  const SchemaFailurePrefix: string := "Failed to get schema: "
  const QueryFailurePrefix: string := "Query failed: "

  /** The reply every tool gives when it caught an exception. */
  function ErrorReply(message: string): Reply {
    map["error" := Str(message)]
  }

  predicate IsErrorReply(r: Reply) {
    r.Keys == {"error"} && r["error"].Str?
  }

  predicate StartsWith(s: string, prefix: string) {
    |prefix| <= |s| && s[..|prefix|] == prefix
  }

  /** `sql.strip().upper().startswith("SELECT")` */
  predicate IsSelectQuery(sql: string) {
    StartsWith(Upper(Strip(sql)), "SELECT")
  }

  function RowsJson(rows: seq<Row>): (r: Json)
    ensures r.Array? && |r.items| == |rows|
    ensures forall i :: 0 <= i < |rows| ==> r.items[i] == Object(rows[i])
  {
    Array(seq(|rows|, i requires 0 <= i < |rows| => Object(rows[i])))
  }

  /** `get_tables`: `tables` is what the catalogue query returned (the
      `table_name` of each row), or the exception raised on the way. */
  function GetTables(tables: Outcome<seq<string>>): (r: Reply)
    ensures tables.Raised? ==> r == ErrorReply(TablesFailurePrefix + tables.message)
    ensures tables.Returned? ==>
      && r.Keys == {"tables"}
      && r["tables"].Array? && |r["tables"].items| == |tables.value|
      && forall i :: 0 <= i < |tables.value| ==> r["tables"].items[i] == Str(tables.value[i])
  {
    match tables
    case Raised(m) => ErrorReply(TablesFailurePrefix + m)
    case Returned(names) =>
      map["tables" := Array(seq(|names|, i requires 0 <= i < |names| => Str(names[i])))]
  }

  /** `get_schema`: `columns` is what the column query for `tableName` returned. */
  function GetSchema(tableName: Json, columns: Outcome<seq<Row>>): (r: Reply)
    ensures columns.Raised? ==> r == ErrorReply(SchemaFailurePrefix + columns.message)
    ensures columns.Returned? ==>
      r.Keys == {"table", "columns"} && r["table"] == tableName && r["columns"] == RowsJson(columns.value)
  {
    match columns
    case Raised(m) => ErrorReply(SchemaFailurePrefix + m)
    case Returned(rows) => map["table" := tableName, "columns" := RowsJson(rows)]
  }

  /** What a call of `execute_query` does: the reply, and the SQL text handed
      to the database, if any. */
  datatype QueryCall = QueryCall(reply: Reply, submitted: Option<string>)

  /** `execute_query`: `run` is the database, giving the rows a submitted
      statement produces or the exception it raises. */
  function ExecuteQuery(sql: string, run: string -> Outcome<seq<Row>>): (r: QueryCall)
    ensures !IsSelectQuery(sql) ==> r.reply == ErrorReply(RejectedMessage) && r.submitted == None
    ensures IsSelectQuery(sql) ==> r.submitted == Some(sql)
    ensures IsSelectQuery(sql) && run(sql).Raised? ==>
      r.reply == ErrorReply(QueryFailurePrefix + run(sql).message)
    ensures IsSelectQuery(sql) && run(sql).Returned? ==>
      r.reply.Keys == {"data"} && r.reply["data"] == RowsJson(run(sql).value)
  {
    if !IsSelectQuery(sql) then QueryCall(ErrorReply(RejectedMessage), None)
    else
      match run(sql)
      case Raised(m) => QueryCall(ErrorReply(QueryFailurePrefix + m), Some(sql))
      case Returned(rows) => QueryCall(map["data" := RowsJson(rows)], Some(sql))
  }

  /** No tool raises: each returns either its result keys or a single-key
      error dict, and the error dict appears exactly when the database raised
      (or, for `execute_query`, when the guard refused the text). */
  lemma GetTablesNeverRaises(tables: Outcome<seq<string>>)
    ensures IsErrorReply(GetTables(tables)) <==> tables.Raised?
  {
    if tables.Returned? { assert "tables" in GetTables(tables); }
  }

  lemma GetSchemaNeverRaises(name: Json, columns: Outcome<seq<Row>>)
    ensures IsErrorReply(GetSchema(name, columns)) <==> columns.Raised?
  {
    if columns.Returned? { assert "table" in GetSchema(name, columns); }
  }

  lemma ExecuteQueryNeverRaises(sql: string, run: string -> Outcome<seq<Row>>)
    ensures IsErrorReply(ExecuteQuery(sql, run).reply) <==> !IsSelectQuery(sql) || run(sql).Raised?
  {
    if IsSelectQuery(sql) && run(sql).Returned? { assert "data" in ExecuteQuery(sql, run).reply; }
  }

  // ---------------------------------------------------------------------
  // The guard is a prefix test on the text after its leading whitespace.

  lemma UpperPrefix(s: string, n: nat)
    requires n <= |s|
    ensures Upper(s)[..n] == Upper(s[..n])
  {
  }

  lemma SpaceUnderUpper(c: char)
    ensures IsSpace(ToUpper(c)) <==> IsSpace(c)
  {
  }

  lemma LeadingSpaceAppend(a: string, b: string)
    ensures LeadingSpace(a) < |a| ==> LeadingSpace(a + b) == LeadingSpace(a)
    ensures LeadingSpace(a) == |a| ==> LeadingSpace(a + b) == |a| + LeadingSpace(b)
  {
    var n := LeadingSpace(a);
    if n < |a| {
      LeadingSpaceUnique(a + b, n);
    } else {
      var m := LeadingSpace(b);
      assert forall i :: |a| <= i < |a| + m ==> (a + b)[i] == b[i - |a|];
      LeadingSpaceUnique(a + b, |a| + m);
    }
  }

  lemma TrailingSpaceAppend(a: string, b: string)
    requires AllSpace(b)
    ensures TrailingSpaceStart(a + b) == TrailingSpaceStart(a)
  {
    var n := TrailingSpaceStart(a);
    assert forall i :: |a| <= i < |a + b| ==> (a + b)[i] == b[i - |a|];
    TrailingSpaceStartUnique(a + b, n);
  }

  lemma AllSpaceIsLeadingSpace(s: string)
    requires AllSpace(s)
    ensures LeadingSpace(s) == |s|
  {
    LeadingSpaceUnique(s, |s|);
  }

  lemma SolidSelectIsAccepted(sql: string)
    ensures (|LStrip(sql)| >= 6 && Upper(LStrip(sql)[..6]) == "SELECT") ==> IsSelectQuery(sql)
  {
    var t := LStrip(sql);
    var e := TrailingSpaceStart(t);
    if |t| >= 6 && Upper(t[..6]) == "SELECT" {
      forall i | 0 <= i < 6 ensures !IsSpace(t[i]) {
        assert Upper(t[..6])[i] == ToUpper(t[i]);
        SpaceUnderUpper(t[i]);
      }
      assert !IsSpace(t[5]);
      assert t[..e][..6] == t[..6];
      UpperPrefix(t[..e], 6);
      assert Strip(sql) == t[..e];
    }
  }

  lemma AcceptedIsSolidSelect(sql: string)
    ensures IsSelectQuery(sql) ==> (|LStrip(sql)| >= 6 && Upper(LStrip(sql)[..6]) == "SELECT")
  {
    var t := LStrip(sql);
    var e := TrailingSpaceStart(t);
    assert Strip(sql) == t[..e];
    if IsSelectQuery(sql) {
      assert e >= 6;
      assert t[..e][..6] == t[..6];
      UpperPrefix(t[..e], 6);
    }
  }

  /** Characterisation of the guard: after the leading whitespace, the next six
      characters, upper-cased, spell SELECT. */
  lemma SelectGuardIsPrefixTest(sql: string)
    ensures IsSelectQuery(sql) <==> (|LStrip(sql)| >= 6 && Upper(LStrip(sql)[..6]) == "SELECT")
  {
    SolidSelectIsAccepted(sql);
    AcceptedIsSolidSelect(sql);
  }

  lemma LStripDropsLeadingSpace(before: string, s: string)
    requires AllSpace(before)
    ensures LStrip(before + s) == LStrip(s)
  {
    AllSpaceIsLeadingSpace(before);
    LeadingSpaceAppend(before, s);
  }

  lemma StripDropsTrailingSpace(s: string, after: string)
    requires AllSpace(after)
    ensures Strip(s + after) == Strip(s)
  {
    LeadingSpaceAppend(s, after);
    var n := LeadingSpace(s);
    if n < |s| {
      assert LStrip(s + after) == s[n..] + after;
      TrailingSpaceAppend(s[n..], after);
    } else {
      AllSpaceIsLeadingSpace(after);
      assert LStrip(s + after) == [] == LStrip(s);
    }
  }

  /** Whitespace around the query does not change the verdict. */
  lemma GuardIgnoresSurroundingSpace(before: string, sql: string, after: string)
    requires AllSpace(before) && AllSpace(after)
    ensures IsSelectQuery(before + sql + after) == IsSelectQuery(sql)
  {
    assert before + sql + after == before + (sql + after);
    LStripDropsLeadingSpace(before, sql + after);
    StripDropsTrailingSpace(sql, after);
    assert Strip(before + sql + after) == Strip(sql);
  }

  /** Texts that agree up to letter case begin with the same number of
      whitespace characters. */
  lemma LeadingSpaceIgnoresCase(a: string, b: string)
    requires Upper(a) == Upper(b)
    ensures LeadingSpace(a) == LeadingSpace(b)
  {
    forall i | 0 <= i < |a| ensures IsSpace(a[i]) <==> IsSpace(b[i]) {
      assert Upper(a)[i] == Upper(b)[i];
      SpaceUnderUpper(a[i]);
      SpaceUnderUpper(b[i]);
    }
    LeadingSpaceUnique(b, LeadingSpace(a));
  }

  /** Letter case does not change the verdict: two texts that upper-case to
      the same string are both accepted or both refused. */
  lemma GuardIgnoresCase(a: string, b: string)
    requires Upper(a) == Upper(b)
    ensures IsSelectQuery(a) == IsSelectQuery(b)
  {
    SelectGuardIsPrefixTest(a);
    SelectGuardIsPrefixTest(b);
    LeadingSpaceIgnoresCase(a, b);
    var n := LeadingSpace(a);
    var ta, tb := a[n..], b[n..];
    if |ta| >= 6 {
      forall i | 0 <= i < 6 ensures Upper(ta[..6])[i] == Upper(tb[..6])[i] {
        assert Upper(a)[n + i] == Upper(b)[n + i];
      }
      assert Upper(ta[..6]) == Upper(tb[..6]);
    }
  }

  /** Nothing after the first six non-whitespace characters is inspected. */
  lemma GuardIgnoresTail(head: string, tail: string)
    requires |LStrip(head)| >= 6
    ensures IsSelectQuery(head + tail) == IsSelectQuery(head)
  {
    var t := LStrip(head);
    LeadingSpaceAppend(head, tail);
    assert LStrip(head + tail) == t + tail;
    assert (t + tail)[..6] == t[..6];
    SelectGuardIsPrefixTest(head);
    SelectGuardIsPrefixTest(head + tail);
  }

  /** A refused query leaves the database untouched: `run` is not consulted. */
  lemma RefusedQueryNeverReachesDatabase(sql: string, run1: string -> Outcome<seq<Row>>,
                                         run2: string -> Outcome<seq<Row>>)
    requires !IsSelectQuery(sql)
    ensures ExecuteQuery(sql, run1) == ExecuteQuery(sql, run2)
    ensures ExecuteQuery(sql, run1).submitted == None
  {
  }

  /** Examples: lower case with leading blanks passes; a second statement
      after a SELECT is not looked at; anything else is refused. */
  lemma AcceptsLowerCaseAfterBlanks()
    ensures IsSelectQuery("  select 1")
  {
    var q := "  select 1";
    assert LeadingSpace(q) == 2 by { LeadingSpaceUnique(q, 2); }
    assert LStrip(q)[..6] == "select";
    SelectGuardIsPrefixTest(q);
  }

  lemma AcceptsTrailingStatement()
    ensures IsSelectQuery("SELECT 1; DROP TABLE orders")
  {
    var q := "SELECT 1; DROP TABLE orders";
    assert LeadingSpace(q) == 0;
    assert q[..6] == "SELECT";
    SelectGuardIsPrefixTest(q);
  }

  lemma RefusesOtherStatements()
    ensures !IsSelectQuery("DROP TABLE orders")
  {
    var q := "DROP TABLE orders";
    assert LeadingSpace(q) == 0;
    assert Upper(q[..6])[0] == 'D';
    SelectGuardIsPrefixTest(q);
  }
}
