# Data bot: loader, tool registry, conversation loop and query guard

A Dafny model of three pieces of a PostgreSQL "data bot":

- **The bulk CSV loader** (`data-setup/load_data.py`, module `LoadData`,
  class `LoadData.BulkCsvLoader`). It covers:
  - how `clean_column_name` turns a CSV header or file stem into a PostgreSQL identifier;
  - how `get_postgres_type` picks a column type from a pandas dtype and a sample value;
  - the column-definition list of `create_table`;
  - the chunked INSERT loop of `load_dataframe`;
  - the result record of `process_csv_file`;
  - the folder loop of `process_folder`;
  - the counts, detail lines and failure lines of `generate_report`.
- **The chat bot** (`client-server/databot.py`, module `Databot`, class
  `Databot.DataBot`). It covers:
  - the tool registry (`sessions`, `available_tools`, `tool_to_session`) that `connect_to_server` and `connect_to_servers` fill;
  - the tool-augmented conversation loop of `process_query`.
- **The tool server** (`mcp_server.py`, module `McpServer`). It covers:
  - the three tools `get_tables`, `get_schema` and `execute_query`, which turn a database outcome into a reply dict;
  - the SELECT-only guard, which decides whether a query reaches the database.

Shared values (`Option`, `Outcome`, `Json`, `Map`, `Concat`) live in
module `Shared`. The ASCII versions of the Python `str` methods used are in
module `Ascii`.

Everything outside these modules is a parameter:

- **Database.** It is a pair of oracles: `LoadData.Database` decides whether a CREATE TABLE or a chunk's INSERT goes through. For the tool server, it is the rows or the exception a query gives back.
- **CSV files.** A file carries the DataFrame `pd.read_csv` would build, or the exception it would raise.
- **Sample values.** A sample records whether `pd.to_datetime` and `float` would accept it.
- **Model endpoint and `_call_tool`.** They are the functions `respond` and `callTool` of `Databot.Env`.
- **Server connections.** Each is a `Databot.ConnectOutcome`: connecting failed, `list_tools` failed, or the listed tools.

How the model is built:

- **State-changing code is imperative Dafny.** This covers `create_table`'s loop, the chunk loop, the folder loop, the report loops, `connect_to_server` and `process_query`. Each method is proved against a specification function: `Map`, `InsertsInChunks`, `Connect`, `ConnectAll`, `Turn`.
- **`process_query` is a step function.** `Databot.Step` handles one iteration of the `for` loop. `Databot.Run` drives the passes of the `while` loop. `Databot.Turn` is the whole call.
- **Entries refer to lists.** An assistant entry of `messages` refers to its pass's `assistant_content` list by number (`Databot.Entry`). `Databot.View` builds what the model is sent from the current contents of every list. This is how the model keeps the Python list aliasing: later tool uses of a pass grow the assistant message an earlier tool use appended.

## Model

| member | source | states |
|---|---|---|
| Ascii.Lower | data-setup/load_data.py:116 | `str.lower` on ASCII: same length, each character lower-cased |
| Ascii.Upper | mcp_server.py:71 | `str.upper` on ASCII: same length, each character upper-cased |
| Ascii.LeadingSpace | mcp_server.py:71 | the whitespace `strip` drops at the front: all of it is whitespace and the character after it is not |
| Ascii.TrailingSpaceStart | mcp_server.py:71 | where the trailing whitespace `strip` drops begins: all after it is whitespace and the character before it is not |
| Ascii.LeadingSpaceUnique | mcp_server.py:71 | those three facts determine the leading-whitespace count |
| Ascii.TrailingSpaceStartUnique | mcp_server.py:71 | those three facts determine where the trailing whitespace starts |
| McpServer.RowsJson | mcp_server.py:78 | `[dict(row) for row in rows]`: one object per row, in order |
| McpServer.GetTables | mcp_server.py:33-45 | a database exception gives `{"error": "Database connection failed: " + message}`; otherwise `{"tables": [...]}` with the table names in order |
| McpServer.GetSchema | mcp_server.py:48-65 | an exception gives `{"error": "Failed to get schema: " + message}`; otherwise exactly the keys `table` and `columns`, with the argument echoed under `table` and the rows under `columns` |
| McpServer.ExecuteQuery | mcp_server.py:68-81 | a query the guard refuses gets `{"error": "Only SELECT queries are allowed"}` and nothing is submitted; an accepted query is submitted unchanged; its exception gives `{"error": "Query failed: " + message}` and its rows give `{"data": rows}` |
| McpServer.GetTablesNeverRaises | mcp_server.py:36-45 | the reply is the single-key error dict exactly when the database raised |
| McpServer.GetSchemaNeverRaises | mcp_server.py:51-65 | the reply is the single-key error dict exactly when the database raised |
| McpServer.ExecuteQueryNeverRaises | mcp_server.py:71-81 | the reply is the single-key error dict exactly when the guard refused the query or the database raised |
| McpServer.SolidSelectIsAccepted | mcp_server.py:71 | a query whose first six characters after the leading whitespace upper-case to SELECT is accepted |
| McpServer.AcceptedIsSolidSelect | mcp_server.py:71 | an accepted query has at least six characters after its leading whitespace, and they upper-case to SELECT |
| McpServer.SelectGuardIsPrefixTest | mcp_server.py:71 | the guard accepts exactly the queries whose first six characters after the leading whitespace upper-case to SELECT |
| McpServer.LStripDropsLeadingSpace | mcp_server.py:71 | whitespace put in front of a text does not change its `lstrip` |
| McpServer.StripDropsTrailingSpace | mcp_server.py:71 | whitespace put after a text does not change its `strip` |
| McpServer.GuardIgnoresSurroundingSpace | mcp_server.py:71 | whitespace before and after a query does not change the verdict |
| McpServer.GuardIgnoresCase | mcp_server.py:71 | two queries that upper-case to the same text get the same verdict |
| McpServer.GuardIgnoresTail | mcp_server.py:71 | once there are six characters after the leading whitespace, anything appended does not change the verdict |
| McpServer.RefusedQueryNeverReachesDatabase | mcp_server.py:71-77 | for a refused query the reply does not depend on the database, and no text is submitted |
| McpServer.AcceptsLowerCaseAfterBlanks | mcp_server.py:71 | `"  select 1"` is accepted |
| McpServer.AcceptsTrailingStatement | mcp_server.py:71 | `"SELECT 1; DROP TABLE orders"` is accepted: the text after the prefix is not looked at |
| McpServer.RefusesOtherStatements | mcp_server.py:71-72 | `"DROP TABLE orders"` is refused |
| LoadData.ReplaceChar | data-setup/load_data.py:107 | `str.replace` of one character: same length, each occurrence replaced and every other character kept |
| LoadData.KeepIdentifierChars | data-setup/load_data.py:109 | the filter keeps only letters, digits and `_`, and never lengthens the text |
| LoadData.CleanColumnName | data-setup/load_data.py:104-116 | the cleaned name is non-empty, holds only `[a-z0-9_]` and does not start with a digit |
| LoadData.PipelineIsSanitize | data-setup/load_data.py:107-116 | replacing, filtering and lower-casing is the character-by-character mapping: space, `-` and `.` become `_`; letters are lower-cased; digits and `_` stay; everything else is dropped, in order |
| LoadData.CleanColumnNameIsSanitized | data-setup/load_data.py:104-116 | the cleaned name is that mapping of the header, prefixed with `col_` when it starts with a digit, and `unnamed_column` when it is empty |
| LoadData.SanitizeFixesIdentifierChars | data-setup/load_data.py:107-116 | the mapping leaves a text of `[a-z0-9_]` unchanged |
| LoadData.CleanColumnNameFixesIdentifiers | data-setup/load_data.py:104-116 | a name that already is an identifier is returned unchanged |
| LoadData.CleanColumnNameIdempotent | data-setup/load_data.py:158 | cleaning twice gives the same name as cleaning once, so `create_table` re-cleaning the renamed columns changes nothing |
| LoadData.CleanColumnNameMergesSeparators | data-setup/load_data.py:107 | headers that differ only in a space, `-`, `.` or `_` between two parts clean to the same name |
| LoadData.GetPostgresType | data-setup/load_data.py:68-102 | the result is one of the seven types. Without a sample, or for a non-`object` dtype, it is the table entry, and TEXT for a dtype not in the table. For an `object` column with a sample: TIMESTAMP exactly when the sample parses as a date; DOUBLE PRECISION exactly when it parses as a number and not as a date; BOOLEAN exactly when it parses as neither and its lower-cased text is true/false/1/0; TEXT otherwise |
| LoadData.DefinitionHasNoComma | data-setup/load_data.py:133 | a rendered `"<name>" <type>` definition with a cleaned name holds no comma |
| LoadData.JoinCommaCount | data-setup/load_data.py:138 | `", ".join` of comma-free parts holds one comma fewer than it has parts |
| LoadData.ColumnListHasOneEntryPerColumn | data-setup/load_data.py:125-138 | the column list of cleaned names has exactly one comma between neighbouring definitions, so it has one entry per column |
| LoadData.InsertTargetAsWrittenMatchesOnlyIdentifiers | data-setup/load_data.py:177 | the INSERT target as written equals, as text, the created table's name exactly when the file stem already is a cleaned name (PostgreSQL folds unquoted names to lower case, so a stem such as `Orders` still reaches the table `orders`; the text comparison does not model that folding) |
| LoadData.InsertTargetAsWrittenMissesCreatedTable | data-setup/load_data.py:177 | for a stem with a `-`, the INSERT as written goes to a table other than the one created |
| LoadData.RenamingKeepsDefinitions | data-setup/load_data.py:158-161 | renaming the columns to their cleaned names before `create_table` leaves every column definition as it was |
| LoadData.RenamedNamesAreDefinedNames | data-setup/load_data.py:158-172 | the renamed DataFrame's column names, which the INSERTs use, are the names of the created table's columns, in order |
| LoadData.NextChunkIsChunk | data-setup/load_data.py:168-169 | the next slice starts where the committed chunks stop and holds at most `chunk_size` rows |
| LoadData.NextChunkRows | data-setup/load_data.py:168-169 | adding the next slice extends the rows the chunks cover, with no gap or overlap |
| LoadData.NextChunk | data-setup/load_data.py:168-182 | committing the next chunk keeps the committed chunks consecutive, all into the table with the DataFrame's columns |
| LoadData.InsertChunks | data-setup/load_data.py:165-184 | the chunk loop. Step 0 fails with nothing sent (`range` raises); a negative step succeeds with nothing sent. For a positive step, chunk `k` starts at row `k * chunk_size`, holds at most `chunk_size` rows and at least one, and the chunks cover a prefix of the rows in order. It succeeds exactly when they cover all rows; otherwise the next chunk is the one the database refused |
| LoadData.CoveredChunksAccepted | data-setup/load_data.py:168-182 | committed chunks, all accepted, that reach past the last row are every chunk of the rows |
| LoadData.ChunksSucceedExactly | data-setup/load_data.py:168-189 | the chunk loop succeeds exactly when every chunk of the rows is accepted: never for step 0, always for a negative step, and for a positive step exactly when the database accepts the INSERT of each chunk `k` with `k * chunk_size < len(rows)` |
| LoadData.BulkCsvLoader.constructor | data-setup/load_data.py:29-48 | the loader keeps the schema it was given |
| LoadData.BulkCsvLoader.CreateTable | data-setup/load_data.py:118-150 | the table is `schema.<cleaned table name>`; there is one definition per DataFrame column, in column order, with the cleaned name and the inferred type; it succeeds exactly when the database accepts that definition |
| LoadData.BulkCsvLoader.LoadDataFrame | data-setup/load_data.py:152-194 | the table and columns `create_table` asks for; a refused CREATE inserts nothing and fails; otherwise the rows go to the created table in chunks as `InsertChunks` states, under the cleaned column names |
| LoadData.BulkCsvLoader.ProcessCsvFile | data-setup/load_data.py:196-238 | name and path are recorded. A read error fails with `rows_loaded` 0, no table name and `error = str(e)`. Success means the load went through and the step was not 0; then `rows_loaded = len(df)`, `table_name = schema.<cleaned stem>`, and with a positive step the committed chunks hold exactly the DataFrame's rows. For a file that was read: a refused CREATE fails with nothing inserted; otherwise the INSERTs are the chunk loop's, as `InsertChunks` states, into the created table under its column names (the corrected target, see Findings); success holds exactly when the database accepts the table and every chunk of the rows (`Describes`) |
| LoadData.BulkCsvLoader.ProcessFolder | data-setup/load_data.py:240-286 | no results for a missing path, a non-directory or no matches; otherwise one result per matched file, in glob order, each the record `process_csv_file` makes for that file, chunk size and database, so a read file succeeded exactly when its table and every chunk were accepted; the running success count equals the number of successful results |
| LoadData.CountSuccessful | data-setup/load_data.py:293 | the success count is at most the number of results |
| LoadData.SuccessfulPlusFailed | data-setup/load_data.py:292-294 | successful plus failed is the total, whether failures are derived by subtraction (line 294) or counted directly (line 409) |
| LoadData.FailedResultsAddNoRows | data-setup/load_data.py:295 | since failed records carry 0 rows, summing rows over successful results equals summing over all of them |
| LoadData.FailureLinesCount | data-setup/load_data.py:323-327 | the "Failed Files" part has one line per failed result |
| LoadData.FailureLinesNameFailedFiles | data-setup/load_data.py:323-327 | a line is in the "Failed Files" part exactly when some failed result has that file name and error |
| LoadData.BulkCsvLoader.GenerateReport | data-setup/load_data.py:288-334 | empty results raise the division by zero of line 308. Otherwise the report holds: the total; the success count; failures as total minus successes, equal to the direct count, so the two add up to the total; the rows summed over successful results; one detail line per result in order; and exactly the failure lines. A successful result without a table name raises `KeyError('table_name')`, and only such a result does |
| Databot.RouteSendsListedTools | client-server/databot.py:64-65 | routing a server's tools adds exactly their names, sends each to the server's session, and keeps every other entry |
| Databot.LaterServerWins | client-server/databot.py:84-85 | after connecting to all servers, a tool name is routed to the session of the last server that listed it |
| Databot.ConnectAllAppend | client-server/databot.py:84-85 | connecting to `a + b` is connecting to `a`, then to `b` |
| Databot.FailedServerIsSkipped | client-server/databot.py:73-74 | a server that fails to connect leaves the registry as if it were not configured |
| Databot.DataBot.constructor | client-server/databot.py:37-42 | the registry starts empty |
| Databot.DataBot.ConnectToServer | client-server/databot.py:44-74 | a failed connection changes nothing. If `list_tools` fails, only the session is appended. Otherwise the session is appended, one descriptor per listed tool is appended in listing order, and each tool name is routed to the session, a later tool overwriting an earlier one |
| Databot.DataBot.ConnectToServers | client-server/databot.py:76-88 | a configuration error is re-raised with nothing connected; otherwise the servers are connected in order (none without `mcpServers`) |
| Databot.View | client-server/databot.py:133-134 | one message per entry, in order; an assistant entry shows the current contents of the list it refers to |
| Databot.Step | client-server/databot.py:126-162 | one iteration of the `for` loop: a step that continues moves to the next block of the same response and leaves the finished passes' lists alone |
| Databot.StepText | client-server/databot.py:127-131 | a text block keeps the loop invariant, or ends the turn as `FinalOk` says. It ends the turn exactly when the current response is one block long, with no new call: with the text of that only block, or with the AttributeError when that block is not text |
| Databot.StepOther | client-server/databot.py:126 | a block that is neither text nor a tool use is skipped and keeps the invariant |
| Databot.AfterToolAddsRound | client-server/databot.py:141-155 | a tool round whose tool returned adds one well-formed round. The tool call went to the routed session with the block's name and input. The model call that follows sees the assistant message ending in that tool use, then the result for its id |
| Databot.AfterToolKeepsSeen | client-server/databot.py:143-155 | after a tool round, every transcript the model saw still grows into the current one, and the last call is the model call on the current transcript |
| Databot.AfterToolKeeps | client-server/databot.py:141-155 | a tool round keeps every part of the loop invariant |
| Databot.StepUnknownTool | client-server/databot.py:141 | a tool name with no session ends the turn with the KeyError naming that tool, and no call is made: the calls are the ones made before the block |
| Databot.StepToolFailed | client-server/databot.py:142 | a tool that raises ends the turn with that tool's exception. Its call on the routed session, with the block's name and input, is the last call made |
| Databot.StepToolDone | client-server/databot.py:143-162 | after a successful tool call, the model is called on the new transcript. A model exception ends the turn with it; a reply of one text block ends the turn with that text; any other reply becomes the current response and the loop moves to the next block, with the invariant kept |
| Databot.StepKeeps | client-server/databot.py:126-162 | every iteration of the `for` loop keeps the invariant or ends as `FinalOk` says |
| Databot.NextPassKeeps | client-server/databot.py:124-126 | starting the next pass on the current response keeps the invariant |
| Databot.RunKeeps | client-server/databot.py:123-162 | every run from a state the invariant describes ends as `FinalOk` says |
| Databot.TurnEndsWell | client-server/databot.py:119-162 | for every model, every tool and every fuel, the result satisfies `FinalOk`. The first model call is on `[user: query]` and the transcript starts with it. Tool rounds alternate one tool call and one model call, and each pairs the tool use with its result. Every transcript the model saw only grows into the final one. Each outcome has its cause |
| Databot.FirstTextIsAnswer | client-server/databot.py:121-131 | a first reply of one text block is returned unchanged, after one model call and no tool call |
| Databot.StuckRuns | client-server/databot.py:123-131 | passes over a reply with no tool use that is not one text block add no call and no message |
| Databot.StuckFirstReplyLoopsForever | client-server/databot.py:123-131 | such a first reply makes the loop run out of any fuel, with one model call and the transcript `[user: query]` |
| Databot.TwoToolsFirstRound | client-server/databot.py:132-155 | first round of a concrete run: the model asks for two tools in one reply, and the first is called and answered |
| Databot.TwoToolsSecondRound | client-server/databot.py:132-162 | second round of that run: the second tool use is handled and the run ends with "done" |
| Databot.SharedAssistantMessageGrows | client-server/databot.py:125-155 | in that run, the assistant message of round one held one tool use when the model first saw it, and holds both tool uses at the second model call, still followed by the result of the first only |
| Databot.StepLastKeeps | client-server/databot.py:126-155 | with a model whose replies have at most one tool use, as the last block, each iteration keeps every seen transcript a prefix of the current one |
| Databot.NextPassLastKeeps | client-server/databot.py:124-126 | under that model, starting a pass keeps that prefix property |
| Databot.RunLastKeeps | client-server/databot.py:123-162 | under that model, every run keeps that prefix property |
| Databot.ToolUseLastPairsTranscript | client-server/databot.py:133-154 | under that model, every transcript the model saw is a prefix of the final one, and in the final transcript each tool round's assistant message ends with its tool use and is followed by the result for its id |
| Databot.StartHandledInOrder | client-server/databot.py:119-126 | at the start no block is handled, no tool is called and nothing is appended |
| Databot.StepContinues | client-server/databot.py:126-155 | an iteration that goes on appends the block to `assistant_content` when it is text or a tool use, and nothing otherwise; a tool use is followed by exactly its tool call on the routed session and one model call; any other block adds no call |
| Databot.HandleNextKeepsOrder | client-server/databot.py:126-155 | handling one more block that way keeps `assistant_content` equal to the text and tool-use blocks handled so far in this pass, in order, and the tool calls made equal to the tool uses appended, in order |
| Databot.StepKeepsOrder | client-server/databot.py:126-155 | every iteration of the `for` loop that goes on keeps that order property: tools are called one at a time, in the order the model emitted the tool uses |
| Databot.NextPassKeepsOrder | client-server/databot.py:124-126 | starting the next pass keeps that order property, with a fresh `assistant_content` |
| Databot.GoesOnAppend | client-server/databot.py:141-155 | calls appended after a model call whose reply was not one text block keep every earlier reply not one text block |
| Databot.StepStopKeeps | client-server/databot.py:126-162 | each iteration keeps every earlier reply answered and not one text block, or ends the turn; a turn that ends on a reply of one text block returns that text |
| Databot.NextPassStopKeeps | client-server/databot.py:124-126 | starting the next pass, or running out of fuel there, keeps that property |
| Databot.RunStopKeeps | client-server/databot.py:123-162 | every run from a state the invariants describe keeps that property to its end |
| Databot.TurnStopsAtFirstText | client-server/databot.py:119-162 | every model call but the last was answered with something other than one text block, and when the last was answered with one text block the turn returns exactly its text: the loop stops at the first such reply, on the first reply and after tool rounds alike |
| Databot.DataBot.ProcessQuery | client-server/databot.py:119-162 | the method's result is `Turn` of the bot's registry, the model and the tools, with `fuel` further passes allowed; `TurnEndsWell` holds of it |
| Databot.Pass | client-server/databot.py:125-162 | one pass of the `while` loop either ends the turn with the result the step function gives, or leaves the state from which the rest of the run gives the same result |

## Left out

- Unicode: `str.isalnum`, `str.isdigit`, `str.isspace`, `str.lower`, `str.upper` and `str.strip` are modelled on ASCII only. A character outside ASCII is neither a letter, a digit nor whitespace, and case conversion leaves it unchanged.
- `pd.read_csv`, `df.replace`, `pd.to_datetime` and `float` are library behaviour. A file's DataFrame or read error, and whether a sample parses as a date or a number, are inputs.
- The database itself is outside this model. It is an oracle that accepts or refuses each CREATE TABLE and each chunk's INSERT with its commit. The connection, cursor, commit and rollback, the connection pool of the tool server, and the SQL text are left out, along with `execute_values`, the quoting of the INSERT's columns and its `VALUES` list. The INSERT is modelled by its target table, its column names, its first row and its rows.
- LoadData.BulkCsvLoader.LoadDataFrame: models the corrected INSERT target, the created table `schema.<cleaned stem>`. As written (line 177), the INSERT goes to `schema.<stem as given>`, so a stem that is not already a cleaned name would fail at the first INSERT; that path is `InsertTargetAsWritten`, listed under Findings.
- LoadData.BulkCsvLoader.ProcessCsvFile: builds on the corrected `LoadDataFrame`, and so do `ProcessFolder` and `GenerateReport`. Where the source's INSERT would go to a table other than the created one, these members describe the load with the rows going to the created table.
- `processing_time`, `total_time`, the average time per file, the timestamp header and the `:,` / `:.2f` formatting of the report are wall-clock values and text formatting.
- `main`, `argparse`, the report file write, `print`, logging and the exit status are CLI and I/O. The failure count `main` uses for its exit status is `CountFailed`.
- `BulkCSVLoader.connect`, `close` and the connection parameters kept by `__init__` are driver plumbing; the loader keeps only its `schema`.
- The Anthropic client, the Phoenix tracing span of `_create_anthropic_response`, `load_dotenv`, the stdio transport, `session.initialize` and the `AsyncExitStack` lifecycle are external SDKs and resource management. The reply of a model call is the oracle `respond`, applied to the tool descriptors and the transcript.
- Databot.DataBot.ProcessQuery: the read of `response.content[0].text` inside the tracing span (client-server/databot.py:99) is not modelled. The source raises there for any reply whose first block is not text, or that is empty (the IndexError of `content[0]`); the model lets such a reply through to the loop.
- Databot.DataBot.ProcessQuery: the `while` loop has no exit of its own, so the model allows at most `fuel` passes after the first and then stops with `OutOfFuel`. Every outcome other than running out of fuel is the source's own, and `StuckFirstReplyLoopsForever` shows that for some replies no fuel suffices.
- McpServer.ExecuteQuery: `sql` is modelled as a string. In the source, `sql.strip()` (mcp_server.py:71) sits outside the `try`, so a non-string argument makes the tool raise instead of replying with an error dict; arguments of other types are not modelled.
- Databot.StepContinues and the order lemmas relate the tool calls to the tool uses of the blocks handled, pass by pass. No result-level lemma restates that order over the final transcript, because blocks a pass skipped leave no trace there.
- A tool result's `result.content` is a `Json` value returned by `callTool`. Floating-point JSON numbers are not modelled.
- The WebSocket server, the demo client and the browser script are transport plumbing outside this model.

## Findings

| source | as written | input that shows it | evidently intended | confidence | as-written member | corrected member |
|---|---|---|---|---|---|---|
| data-setup/load_data.py:177 | `load_dataframe` sends every chunk to `schema.table_name` with the file stem as given, while `create_table` created `schema.<cleaned stem>` (line 122) | a file `sales-2023.csv`: the table `public.sales_2023` is created, then rows are sent to `public.sales-2023` | insert the rows into the table that was created, as `process_csv_file` reports (line 230) | not executed | LoadData.InsertTargetAsWrittenMissesCreatedTable | LoadData.BulkCsvLoader.LoadDataFrame |
