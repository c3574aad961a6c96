# DSR-SQL Lite: schema linking and schema rendering, modelled in Dafny

DSR-SQL Lite answers natural-language questions over SQLite, MySQL, Doris,
Snowflake and BigQuery databases with a language model. Between the model
calls and the database drivers sits deterministic bookkeeping, and that is
what this project models and proves properties of:

- `DbIdent` (`db_ident.dfy`): the engine behind a task id, the fenced SQL
  block of a reply, table-name normalisation, and the retry loop that asks
  the model to complete an elided Snowflake query.
- `RelationalSchema` (`relational_schema.dfy`): the M-Schema text of a
  SQLite, MySQL or Doris database, with case-insensitive table and column
  selection and foreign keys between shown tables only.
- `Series` (`series.dfy`): collapsing tables whose names differ only in
  digits (and, for BigQuery, a date ending) into one series.
- `WarehouseSchema` (`warehouse_schema.dfy`): the Snowflake and BigQuery
  M-Schema texts, which resolve names directly or through a surrogate
  table and show each surrogate description once.
- `Ddl` (`ddl.dfy`): the three CREATE TABLE generators and their type maps.
- `SchemaLinking` (`schema_linking.dfy`): the last SQL block of a reply,
  the table enumerators, the merge of the sampled table maps, and the
  sampling workflows with their token budget and retries.
- `ExtractTables` (`extract_tables.dfy`): the validation of the model's
  table and column map against the stored schema, and its retry loop.
- `TableSeries` (`table_series.dfy`): schema generation for MySQL and
  Doris, which groups a database's tables into series, stores each series
  once under its least name and describes it.
- `Text`, `Sorting`, `Dicts`, `Basics`: Python's string operations,
  `sorted`, insertion-ordered dictionaries, and None / exceptions as
  `Option` and `Result`.

Parsed JSON files are values (`Loaded`: missing, unparsable or parsed).
The language model is an oracle: a sequence of replies, one per call, with
`None` for a call that raised or whose answer did not parse. Database
queries are functions supplied as parameters, and token counts are given
numbers. Each loop of the source is a method proved equal to a function,
and the properties are lemmas about those functions.

## Model

| member | source | states |
|---|---|---|
| DbIdent.DetectDbType | DSR_Lite/utils/Database_Interface.py:62-78 | the engine is BigQuery exactly when the lower-cased id starts with `bq` or `ga`, Snowflake exactly for `sf`, SQLite for `local`, MySQL for `my` (which covers `mysql`), Doris for `doris`; an id with none of these prefixes (the empty id included) is a failure |
| DbIdent.DetectCaseInsensitive | DSR_Lite/utils/Database_Interface.py:65 | the engine of an id does not change when the id is upper- or lower-cased |
| DbIdent.DetectPrefixStable | DSR_Lite/utils/Database_Interface.py:67-76 | appending anything to a recognised id keeps its engine: only the prefix decides |
| DbIdent.FirstClose | DSR_Lite/utils/Database_Interface.py:81 | the lazy group of the block pattern ends at the first position where white space followed by a closing fence can start, and at no earlier one |
| DbIdent.ExtractSqlBlock | DSR_Lite/utils/Database_Interface.py:80-85 | an extracted block is stripped of surrounding white space |
| DbIdent.NoFenceNoBlock | DSR_Lite/utils/Database_Interface.py:82 | a search from a position after which no back-tick occurs finds no block |
| DbIdent.NoBacktickNoSql | DSR_Lite/utils/Database_Interface.py:80-85 | a reply without any back-tick yields no SQL |
| DbIdent.ExtractRoundTrip | DSR_Lite/utils/Database_Interface.py:80-85 | a stripped query that holds no fence, wrapped in a ```` ```sql ```` block, is extracted unchanged (the empty query included) |
| DbIdent.CleanTableName | DSR_Lite/utils/Database_Interface.py:87-92 | the cleaned name holds no double quote, no digit and no upper-case letter |
| DbIdent.CleanIdempotent | DSR_Lite/utils/Database_Interface.py:87-92 | cleaning a cleaned name changes nothing |
| DbIdent.CleanConcat | DSR_Lite/utils/Database_Interface.py:87-92 | cleaning works character by character: the cleaning of a concatenation is the concatenation of the cleanings |
| DbIdent.CleanForgetsCaseAndDigits | DSR_Lite/utils/Database_Interface.py:89-91 | names that differ only in letter case, digits or double quotes clean to the same string |
| DbIdent.RemoveCharIdempotent | DSR_Lite/utils/Database_Interface.py:89 | removing a character twice is removing it once |
| DbIdent.NeedsCompletionSimplified | DSR_Lite/utils/Database_Interface.py:458-462 | the five keyword conditions are equivalent to four: "repeated" with "union" is already covered by "repeat" with "union" |
| DbIdent.SqlCompletion | DSR_Lite/utils/Database_Interface.py:449-487 | an engine other than Snowflake, or a query without the keywords, is returned unchanged with status 1 and no model call; otherwise at most ten calls: status 0 with the first non-empty extracted block, every earlier attempt having failed, or status 1 with the text unchanged after ten failed attempts |
| RelationalSchema.TablesToProcessMembers | DSR_Lite/utils/Database_Interface.py:512-525 | a stored table is shown exactly when some request, lower-cased, maps to it through the lower-cased-name map in which the last stored name wins |
| RelationalSchema.TablesToProcessStored | DSR_Lite/utils/Database_Interface.py:524-525 | every shown name is a stored table name matching some request up to letter case, so requests for missing tables show nothing |
| RelationalSchema.TablesToProcessConcat | DSR_Lite/utils/Database_Interface.py:525 | tables are shown in request order: the tables for `a + b` are those for `a` followed by those for `b` |
| RelationalSchema.TablesToProcessCaseInsensitive | DSR_Lite/utils/Database_Interface.py:524 | lower-casing the requests changes nothing |
| RelationalSchema.TablesToProcessAll | DSR_Lite/utils/Database_Interface.py:514-516 | with no selection every stored table is shown in stored order, provided no two stored names differ only in letter case |
| RelationalSchema.FirstKeyMatch | DSR_Lite/utils/Database_Interface.py:556-559 | the index found is the first selection key equal to the table name up to letter case; none when no key matches |
| RelationalSchema.ColumnsToRenderMembers | DSR_Lite/utils/Database_Interface.py:561-564 | at column level a column is shown exactly when it is the last stored column whose lower-cased name was requested |
| RelationalSchema.ColumnsToRenderAll | DSR_Lite/utils/Database_Interface.py:561-564 | requesting every stored column of a table whose column names are distinct up to case shows the table's columns unchanged, in order |
| RelationalSchema.ColumnLineShape | DSR_Lite/utils/Database_Interface.py:570-579 | a column line opens with `(name: type` and ends with `)` |
| RelationalSchema.RelevantFks | DSR_Lite/utils/Database_Interface.py:588-593 | each listed line is `source = target` of a foreign key whose two tables are both shown; the list is empty exactly when no foreign key joins two shown tables |
| RelationalSchema.FkSectionIff | DSR_Lite/utils/Database_Interface.py:586-597 | a foreign-key section appears exactly when more than one table is shown and some foreign key joins two shown tables |
| RelationalSchema.MSchemaErrors | DSR_Lite/utils/Database_Interface.py:494-542 | the error raised: no db id; a missing file; a non-list selection at table level; a non-dict selection at column level; any other level with a selection given; the text is produced exactly in the remaining cases (no selection means every table at table level) |
| RelationalSchema.FindRequestedColumns | DSR_Lite/utils/Database_Interface.py:555-559 | the loop over the selection stops at the first key naming the table and returns its columns lower-cased, or nothing |
| RelationalSchema.RenderColumnLines | DSR_Lite/utils/Database_Interface.py:568-583 | one line per column in order; every line but the last is the column's rendering followed by a comma, the last has none |
| RelationalSchema.RenderTable | DSR_Lite/utils/Database_Interface.py:546-584 | a table block is its heading, `[`, the lines of the chosen columns and `]` |
| RelationalSchema.RenderForeignKeys | DSR_Lite/utils/Database_Interface.py:586-597 | the loop collects exactly the foreign-key section above |
| RelationalSchema.RenderBlocks | DSR_Lite/utils/Database_Interface.py:546-584 | one block per shown table, in order |
| RelationalSchema.RenderLines | DSR_Lite/utils/Database_Interface.py:544-597 | the lines are the header with the db id, the table blocks, then the foreign-key section |
| RelationalSchema.MSchema | DSR_Lite/utils/Database_Interface.py:489-599 | `M_Schema_sqlite` (and `M_Schema_mysql`, which differs only in the directory it reads): the result equals the rendered text or the error of `MSchemaErrors` |
| Series.TrailingDigits | DSR_Lite/utils/Database_Interface.py:729 | the count of digits a name ends with: those characters are digits and the one before them is not |
| Series.DatedYearSeries | DSR_Lite/utils/Database_Interface.py:729-730 | under the BigQuery rule a yearly table `base_YYYY` belongs to the series of `base` |
| Series.DatedSpanSuffix | DSR_Lite/utils/Database_Interface.py:729 | the ending `_YYYY_<n>yr` is matched as a whole by the date pattern |
| Series.DatedSpanSeries | DSR_Lite/utils/Database_Interface.py:729-730 | under the BigQuery rule a table `base_YYYY_<n>yr` belongs to the series of `base` |
| Series.FirstsSublist | DSR_Lite/utils/Database_Interface.py:905-913 | the simplified list keeps input order and only input names |
| Series.FirstsSeries | DSR_Lite/utils/Database_Interface.py:905-913 | the series of the simplified list are exactly those of the input, and no two kept names share a series |
| Series.FirstsKeptAt | DSR_Lite/utils/Database_Interface.py:909-912 | a kept name occurs at a position before which no name of its series occurs |
| Series.FirstsKeeps | DSR_Lite/utils/Database_Interface.py:909-912 | a name at a position before which no name of its series occurs is kept |
| Series.FirstsMembers | DSR_Lite/utils/Database_Interface.py:905-913 | a name is kept exactly when it occurs at a position with no earlier name of the same series |
| Series.FirstsOfDistinct | DSR_Lite/utils/Database_Interface.py:905-913 | a list whose series are already pairwise distinct is kept whole |
| Series.FirstsIdempotent | DSR_Lite/utils/Database_Interface.py:905-913 | simplifying twice is simplifying once |
| Series.SimplifyListSeries | DSR_Lite/utils/Database_Interface.py:725-734 | the loop with the set of series seen returns the first name of each series in order; the BigQuery rule first removes a trailing `_YYYY` or `_YYYY_<n>yr` (line 729), the Snowflake rule at lines 905-913 does not |
| Series.KeptKeysFacts | DSR_Lite/utils/SL/Get_SL.py:97-106 | the kept keys are input keys, in sorted order, of pairwise distinct series, and cover every series of the input |
| Series.KeptKeysSmallest | DSR_Lite/utils/SL/Get_SL.py:97-106 | each kept key precedes every input key of its series |
| Series.SimplifiedTablesFacts | DSR_Lite/utils/SL/Get_SL.py:83-108 | the result's keys are input keys with their original values, pairwise of distinct series, one per series of the input, each the smallest key of its series |
| Series.SimplifiedTablesIdempotent | DSR_Lite/utils/SL/Get_SL.py:83-108 | simplifying an already simplified map changes nothing |
| Series.SimplifyTableSeries | DSR_Lite/utils/SL/Get_SL.py:83-108 | the loop over the sorted keys builds exactly the simplified map above |
| WarehouseSchema.FormattedColumns | DSR_Lite/utils/Database_Interface.py:943-957 | at most one text per column entry: entries of fewer than four fields are skipped |
| WarehouseSchema.FormatTableShape | DSR_Lite/utils/Database_Interface.py:936-967 | a table block opens with `# Table: <name>` and `[`, closes the bracket after the columns and ends with `# Table Description: …` exactly when a description is given; formatting fails exactly when some column entry has more than four fields |
| WarehouseSchema.FormattedColumnsCount | DSR_Lite/utils/Database_Interface.py:944-945 | one column line per entry of exactly four fields |
| WarehouseSchema.IndentedLinesCommas | DSR_Lite/utils/Database_Interface.py:959-960 | every column line is indented by two spaces, and all but the last end with a comma |
| WarehouseSchema.ColumnTextShape | DSR_Lite/utils/Database_Interface.py:948-956 | a column text opens with `(name: type` and closes with `)` |
| WarehouseSchema.DescOf | DSR_Lite/utils/Database_Interface.py:1065-1066 | a description counts only when the summary holds it and it is not empty |
| WarehouseSchema.Render | DSR_Lite/utils/Database_Interface.py:1005-1070 | rendering the resolved requests can only fail with a non-object schema or an over-long column entry |
| WarehouseSchema.RenderKeys | DSR_Lite/utils/Database_Interface.py:1005-1070 | rendering fails exactly when some request raises; otherwise one table is shown per found request, in request order |
| WarehouseSchema.RenderDescriptions | DSR_Lite/utils/Database_Interface.py:1061-1067 | a table is shown with its summary description exactly when the description is non-empty, its key is non-empty and the key was not shown with a description before |
| WarehouseSchema.DescribedOnce | DSR_Lite/utils/Database_Interface.py:1003-1067 | each surrogate description is shown at most once per call: no two tables shown with a description share a key |
| WarehouseSchema.RenderPrefixFailure | DSR_Lite/utils/Database_Interface.py:1005-1070 | the first exception ends the rendering: once a prefix of the requests fails, the whole rendering fails with the same error |
| WarehouseSchema.FirstSurrogate | DSR_Lite/utils/Database_Interface.py:1034-1048 | the surrogate found is one whose group, in lower case, lists the short name, and none earlier does; none when no group lists it |
| WarehouseSchema.SnowResolveSkips | DSR_Lite/utils/Database_Interface.py:1005-1017 | names of fewer than three dot-parts, and names of another database, are skipped; the letter case of a request does not matter |
| WarehouseSchema.SnowResolveFound | DSR_Lite/utils/Database_Interface.py:1019-1055 | a found table is shown as `db_id.key`, where the key is a stored table key whose lower case is the requested `schema.table`, or a surrogate whose group lists it |
| WarehouseSchema.SnowDirectFound | DSR_Lite/utils/Database_Interface.py:1024-1028 | a request whose `schema.table` is a stored key up to letter case is always found directly, under a stored key |
| WarehouseSchema.TablesBlocks | DSR_Lite/utils/Database_Interface.py:980-989 | branch A for one schema can only fail with an over-long column entry |
| WarehouseSchema.SchemasBlocks | DSR_Lite/utils/Database_Interface.py:973-989 | branch A over every schema can only fail with an over-long column entry |
| WarehouseSchema.SnowSchemaErrors | DSR_Lite/utils/Database_Interface.py:923-933 | the Snowflake renderer reports a missing file exactly when it is missing, a load failure exactly when it does not parse, and never an empty-schema error |
| WarehouseSchema.FirstLowerMatch | DSR_Lite/utils/Database_Interface.py:839 | the project found is a stored key equal to the name in lower case, and none when no key is |
| WarehouseSchema.BqResolveSkips | DSR_Lite/utils/Database_Interface.py:832-842 | names of fewer than three dot-parts, and names whose first part names no project, are skipped; letter case does not matter |
| WarehouseSchema.BqResolveFound | DSR_Lite/utils/Database_Interface.py:844-871 | a found table is shown under the first project matching the request, and is a stored table key whose lower case is the requested `dataset.table`, or a surrogate whose group in that project lists it |
| WarehouseSchema.NonObjectProject | DSR_Lite/utils/Database_Interface.py:844-869 | under a project that is not an object nothing is found: the request is skipped exactly when no table key matches and the dataset test finds nothing, `in` answering False (an empty list, a string without the name), and raises otherwise |
| WarehouseSchema.NonObjectProjectExample | DSR_Lite/utils/Database_Interface.py:844-869 | "p2.ds.x" under a non-object project "p2", with dataset "ds" held by another project, is skipped when `in` finds no "ds" in "p2" and raises when "p2" is a number, boolean or null or holds "ds" |
| WarehouseSchema.ProjectsBlocks | DSR_Lite/utils/Database_Interface.py:795-812 | branch A over the BigQuery projects can only fail with an over-long column entry |
| WarehouseSchema.BqSchemaErrors | DSR_Lite/utils/Database_Interface.py:759-768 | the BigQuery renderer reports a missing file, a load failure, and an empty file exactly in those cases |
| WarehouseSchema.TablesBlocksPrefixFailure | DSR_Lite/utils/Database_Interface.py:980-989 | a failure on a prefix of the tables is the failure of the whole schema |
| WarehouseSchema.SchemasBlocksPrefixFailure | DSR_Lite/utils/Database_Interface.py:974-989 | a failure on a prefix of the schemas is the failure of branch A |
| WarehouseSchema.ProjectsBlocksPrefixFailure | DSR_Lite/utils/Database_Interface.py:796-812 | a failure on a prefix of the projects is the failure of branch A |
| WarehouseSchema.FormatColumns | DSR_Lite/utils/Database_Interface.py:943-957 | the column loop fails exactly when some entry has more than four fields, and otherwise yields the formatted texts |
| WarehouseSchema.IndentColumns | DSR_Lite/utils/Database_Interface.py:959-960 | the indenting loop yields the indented lines with their commas |
| WarehouseSchema.FormatTableDetails | DSR_Lite/utils/Database_Interface.py:936-967 | `_format_table_details` yields the table block above |
| WarehouseSchema.RenderResolved | DSR_Lite/utils/Database_Interface.py:1003-1070 | the loop over the requests with the set of keys already described yields the rendered lines above |
| WarehouseSchema.AddKeys | DSR_Lite/utils/Database_Interface.py:999-1001 | adding `key.lower(): key` for each key in turn yields the last-wins lower-case index of all keys so far |
| WarehouseSchema.AddSchemaTables | DSR_Lite/utils/Database_Interface.py:997-1001 | one schema's table keys extend the Snowflake table map |
| WarehouseSchema.SnowMaps | DSR_Lite/utils/Database_Interface.py:994-1001 | the Snowflake schema map and table map, built by the loops, are the lower-case indexes of the schema names and of their tables' keys |
| WarehouseSchema.AddDataset | DSR_Lite/utils/Database_Interface.py:819-828 | one dataset extends the BigQuery dataset map and table map |
| WarehouseSchema.DatasetMaps | DSR_Lite/utils/Database_Interface.py:819-828 | one project's datasets extend the BigQuery maps |
| WarehouseSchema.BqMaps | DSR_Lite/utils/Database_Interface.py:814-828 | the BigQuery maps are the lower-case indexes of every dataset name and every table key of every project |
| WarehouseSchema.RenderTables | DSR_Lite/utils/Database_Interface.py:980-989 | the loop over one schema's tables yields branch A's blocks for it |
| WarehouseSchema.RenderSchemas | DSR_Lite/utils/Database_Interface.py:974-989 | the loop over the schemas yields branch A's blocks |
| WarehouseSchema.RenderProjects | DSR_Lite/utils/Database_Interface.py:796-812 | the loop over the projects yields BigQuery branch A's blocks |
| WarehouseSchema.SnowMSchema | DSR_Lite/utils/Database_Interface.py:890-1072 | `M_Schema` for Snowflake: the series-simplified requests, then every table when none is given, else the resolved requests; the errors as above |
| WarehouseSchema.SnowBody | DSR_Lite/utils/Database_Interface.py:971-1070 | every schema's tables when no request survives the simplification, else the resolved requests |
| WarehouseSchema.BqBody | DSR_Lite/utils/Database_Interface.py:795-886 | every project's tables when no request survives the simplification, else the resolved requests |
| WarehouseSchema.BqMSchema | DSR_Lite/utils/Database_Interface.py:720-888 | `M_Schema_bigquery`: the task line and the body above, or the error raised |
| Ddl.BqTypesShort | DSR_Lite/utils/Database_Interface.py:1330-1338 | every BigQuery target type is within the placeholder threshold |
| Ddl.SnowType | DSR_Lite/utils/Database_Interface.py:1114-1158 | Snowflake: NUMBER becomes INTEGER and FLOAT becomes REAL, TEXT, DATE and TIME stay (upper-cased), any other type is kept as stored, letter case included |
| Ddl.MySqlType | DSR_Lite/utils/Database_Interface.py:1241-1267 | MySQL and Doris: NUMBER becomes INT, FLOAT becomes DOUBLE, every other type is upper-cased |
| Ddl.BqType | DSR_Lite/utils/Database_Interface.py:1367-1372 | BigQuery: an empty type is UNKNOWN, a type longer than 50 characters is COMPLEX_TYPE, a known type is translated, an unknown one upper-cased; the result is never longer than 50 characters |
| Ddl.TypeCaseInsensitive | DSR_Lite/utils/Database_Interface.py:1241-1372 | the MySQL and BigQuery translations ignore the letter case of the stored type |
| Ddl.ColumnDefs | DSR_Lite/utils/Database_Interface.py:1152-1161 | at most one definition per column entry |
| Ddl.ColumnDefsMembers | DSR_Lite/utils/Database_Interface.py:1152-1161 | a definition is produced exactly for the entries with at least a name and a type |
| Ddl.SelectedIff | DSR_Lite/utils/Database_Interface.py:1106-1143 | a table is kept exactly when no table list is given or some listed name cleans to the same string as its qualified name |
| Ddl.TableDdlNames | DSR_Lite/utils/Database_Interface.py:1130-1172 | a table gets a statement, under its qualified name, exactly when it is selected (BigQuery: and has a column definition) |
| Ddl.TableDdlsNames | DSR_Lite/utils/Database_Interface.py:1130-1172 | the statements of one schema's tables are named after exactly its emitted tables |
| Ddl.SchemaDdlsNames | DSR_Lite/utils/Database_Interface.py:1123-1172 | a statement names a selected table of some schema object, and every selected table of every schema object gets one |
| Ddl.BqDdlsNames | DSR_Lite/utils/Database_Interface.py:1341-1388 | a BigQuery statement is named `<project>.<table>` after a selected table with at least one column definition in some dataset of that project |
| Ddl.MySqlDdlsNames | DSR_Lite/utils/Database_Interface.py:1249-1277 | the MySQL statements follow the requested order and skip exactly the names that are not tables of the database |
| Ddl.MySqlDdlTextEmpty | DSR_Lite/utils/Database_Interface.py:1229-1290 | the MySQL text is empty exactly when the file cannot be read or no requested name is a table |
| Ddl.ColumnDefinitions | DSR_Lite/utils/Database_Interface.py:1150-1161 | the column loop yields the definitions above |
| Ddl.TableStatements | DSR_Lite/utils/Database_Interface.py:1130-1172 | the loop over one schema's tables yields its statements |
| Ddl.SchemaStatements | DSR_Lite/utils/Database_Interface.py:1123-1172 | the loop over the schema objects yields every statement in file order |
| Ddl.SnowDdl | DSR_Lite/utils/Database_Interface.py:1074-1175 | `generate_ddl_from_json` for Snowflake: the statements joined by newlines, or the file error |
| Ddl.BqDdl | DSR_Lite/utils/Database_Interface.py:1292-1390 | `generate_ddl_from_json_bigquery`: the statements joined by newlines, or the file error, or the empty-file error |
| Ddl.MySqlColumnDefinitions | DSR_Lite/utils/Database_Interface.py:1258-1273 | one definition per column, with ` PRIMARY KEY` for a primary key |
| Ddl.MySqlDdl | DSR_Lite/utils/Database_Interface.py:1216-1290 | `get_tables_ddl_mysql`: the statements joined by `;` and a blank line, ending in `;`, or the empty string |
| SchemaLinking.NextBlock | DSR_Lite/utils/SL/Get_SL.py:110-133 | a block found at or after the start position opens with ```sql and closes with a later fence inside the text |
| SchemaLinking.ExtractNone | DSR_Lite/utils/SL/Get_SL.py:110-133 | a reply without ```sql yields no SQL |
| SchemaLinking.ExtractSingle | DSR_Lite/utils/SL/Get_SL.py:110-133 | a reply that is one SQL block gives back its body, stripped |
| SchemaLinking.ExtractLast | DSR_Lite/utils/SL/Get_SL.py:110-133 | of two SQL blocks the later one is taken, stripped |
| SchemaLinking.BlocksOfText | DSR_Lite/utils/SL/Get_SL.py:110-133 | the non-greedy search finds exactly the bodies of the blocks a backtick-free reply was built from, in order |
| SchemaLinking.ExtractBlocks | DSR_Lite/utils/SL/Get_SL.py:110-133 | whatever blocks precede it, the last block of a reply is the SQL taken, stripped, and a reply of no block gives none |
| SchemaLinking.NonEmptyTablesMembers | DSR_Lite/utils/SL/Get_SL.py:165-174 | a name is listed exactly when it is `<prefix>.<key>` of a table with a non-empty column list |
| SchemaLinking.SchemaTablesMembers | DSR_Lite/utils/SL/Get_SL.py:164-174 | the names listed for several schemas are those of the non-empty tables of the schema objects among them |
| SchemaLinking.SnowTablesFacts | DSR_Lite/utils/SL/Get_SL.py:135-176 | get_table_mess_snow lists exactly the non-empty tables as `<db>.<table>`, and raises exactly when a schema is not an object |
| SchemaLinking.BigqueryTablesFacts | DSR_Lite/utils/SL/Get_SL.py:179-234 | get_table_mess_bigquery gives no tables unless the file holds exactly one project, then lists exactly `<project>.<table>` for the non-empty tables of its dataset objects; a project that is not an object raises |
| SchemaLinking.AppendNonEmpty | DSR_Lite/utils/SL/Get_SL.py:165-174 | the inner loop appends the non-empty tables of one schema |
| SchemaLinking.WalkSchemas | DSR_Lite/utils/SL/Get_SL.py:164-174 | the schema walk lists the non-empty tables, or raises on a schema that is not an object when those are not skipped |
| SchemaLinking.TableMessSnow | DSR_Lite/utils/SL/Get_SL.py:135-176 | get_table_mess_snow as a loop, equal to its definition |
| SchemaLinking.TableMessBigquery | DSR_Lite/utils/SL/Get_SL.py:179-234 | get_table_mess_bigquery as a loop, equal to its definition |
| SchemaLinking.FirstDatabaseFacts | DSR_Lite/utils/SL/Get_SL.py:380-390 | a database is found exactly when some key is not skipped, and then it is the first such |
| SchemaLinking.DatabaseChoice | DSR_Lite/utils/SL/Get_SL.py:380-394 | the named database is read when the file has it, otherwise the first database not skipped |
| SchemaLinking.ListedTablesSublist | DSR_Lite/utils/SL/Get_SL.py:396-404 | the table list keeps the stored order |
| SchemaLinking.ListedTablesMembers | DSR_Lite/utils/SL/Get_SL.py:396-404 | a name is listed exactly when it is a stored table with columns and is not a skipped key |
| SchemaLinking.ListTables | DSR_Lite/utils/SL/Get_SL.py:396-404 | the table loop, equal to its definition |
| SchemaLinking.TableNames | DSR_Lite/utils/SL/Get_SL.py:346-404 | get_table_mysql (and, with foreign_keys the only skipped key, get_table_sqlite) as a loop, equal to its definition; no file gives no tables |
| SchemaLinking.AddNewFacts | DSR_Lite/utils/SL/Get_SL.py:411-416 | `set.update` gives the union, and a list without repeats stays without repeats |
| SchemaLinking.AbsorbStep | DSR_Lite/utils/SL/Get_SL.py:411-416 | merging one more table entry keeps the merge invariant |
| SchemaLinking.FoldMerges | DSR_Lite/utils/SL/Get_SL.py:409-416 | the fold over all entries is their merge |
| SchemaLinking.FlattenMembers | DSR_Lite/utils/SL/Get_SL.py:409-411 | an entry is visited exactly when some sampled map holds it |
| SchemaLinking.SortValues | DSR_Lite/utils/SL/Get_SL.py:418-420 | sorting the columns keeps the tables and their order |
| SchemaLinking.SortNoDup | DSR_Lite/utils/SL/Get_SL.py:418-420 | sorting a set's elements gives a strictly sorted list with the same elements |
| SchemaLinking.MergeTableSchemasFacts | DSR_Lite/utils/SL/Get_SL.py:406-423 | the merge names each table some sample names exactly once, never foreign_keys, with the strictly sorted union of the columns the samples give it |
| SchemaLinking.MergeSingle | DSR_Lite/utils/SL/Get_SL.py:406-423 | one sample of one table comes back with its columns sorted |
| SchemaLinking.MergeMap | DSR_Lite/utils/SL/Get_SL.py:411-416 | the loop over one sampled map, equal to the fold |
| SchemaLinking.MergeTables | DSR_Lite/utils/SL/Get_SL.py:406-423 | merge_table_schemas as loops, equal to its definition |
| SchemaLinking.Round | DSR_Lite/utils/SL/Get_SL.py:891-945 | a round makes at most max_retries calls, stops at the first call that does not raise and keeps its reply; a failed round made max_retries calls that all raised |
| SchemaLinking.SamplingBounds | DSR_Lite/utils/SL/Get_SL.py:885-950 | the rounds make at most rounds × max_retries calls and keep at most one sample per round, in round order |
| SchemaLinking.SamplingAllSucceed | DSR_Lite/utils/SL/Get_SL.py:885-950 | when no call raises, every round takes one call and keeps its reply under its round number |
| SchemaLinking.SamplingAllFail | DSR_Lite/utils/SL/Get_SL.py:885-950 | when every call raises, every round spends all its retries and the history stays empty |
| SchemaLinking.SampleRound | DSR_Lite/utils/SL/Get_SL.py:891-945 | the retry loop of one round, equal to its definition |
| SchemaLinking.NextRound | DSR_Lite/utils/SL/Get_SL.py:885-950 | one more round extends the history and the sample list |
| SchemaLinking.SampleRounds | DSR_Lite/utils/SL/Get_SL.py:885-950 | the sampling loop; the sample list is the history's values in order |
| SchemaLinking.BudgetOrder | DSR_Lite/utils/SL/Get_SL.py:845-874 | SL_workflow, whose DDL limit is max_token // 2, falls back to the per-table workflow whenever SL_workflow_min does and uses the DDL text only when SL_workflow_min would |
| SchemaLinking.LinkedFacts | DSR_Lite/utils/SL/Get_SL.py:952-958 | the merged and simplified samples list each table once, each named by some sample and never foreign_keys, with pairwise distinct series and the sorted columns the samples give it |
| SchemaLinking.MinWorkflowFacts | DSR_Lite/utils/SL/Get_SL.py:661-793 | SL_workflow_min raises exactly when it is not the one-table shortcut, the M-Schema text is over max_token and no DDL text was bound; the shortcut is the table with no columns; a whole-schema prompt gives a linking of its samples with at most three rounds of history, the per-table fallback one of its per-table samples with none |
| SchemaLinking.HandOverRaises | DSR_Lite/utils/SL/Get_SL.py:661-872 | SL_workflow's hand-over to SL_workflow_min raises, for more than one table, exactly when the engine is MySQL or Doris and the M-Schema text is over 50000 tokens |
| SchemaLinking.WorkflowFacts | DSR_Lite/utils/SL/Get_SL.py:794-972 | SL_workflow returns, for a single table, the shortcut `{t: []}` with history `{0: {t: []}}`; it raises exactly when the schema is over budget and no DDL text was bound; otherwise it returns its own linking only when all_use_min is off and a schema text fits, with at most three rounds of history |
| SchemaLinking.SlWorkflowOld | DSR_Lite/utils/SL/Get_SL.py:575-660 | SL_workflow_old, equal to its definition, its result linking its samples |
| SchemaLinking.SlWorkflowMin | DSR_Lite/utils/SL/Get_SL.py:661-793 | SL_workflow_min, equal to its definition, including the error of an unbound DDL text |
| SchemaLinking.SlWorkflow | DSR_Lite/utils/SL/Get_SL.py:794-972 | SL_workflow, equal to its definition, including the error of an unbound DDL text |
| ExtractTables.IndexFinds | DSR_Lite/utils/SL/Extract_tables_col.py:330-336 | a name found in a lower-cased index is a stored name of that lower-case form, and every stored name is found |
| ExtractTables.ValidColumnsMembers | DSR_Lite/utils/SL/Extract_tables_col.py:390-396 | a column is kept exactly when the model named one with the same lower-case form as a stored column, and it is kept in stored case |
| ExtractTables.EntryColumnsFacts | DSR_Lite/utils/SL/Extract_tables_col.py:385-398 | a validated column is a stored column of the table and matches, case-insensitively, a column the model named |
| ExtractTables.ValidateFacts | DSR_Lite/utils/SL/Extract_tables_col.py:366-398 | the validated map names exactly the stored tables an accepted entry names, once each, each with the columns of an accepted entry for it |
| ExtractTables.ValidateSound | DSR_Lite/utils/SL/Extract_tables_col.py:366-398 | each key of the validated map is the stored name of a table the model named in any case, listed once, with the columns of one of its entries checked against the stored table, in the order the model first named it; MySQL never keeps a table with no valid column |
| ExtractTables.ValidateOrder | DSR_Lite/utils/SL/Extract_tables_col.py:366-398 | the validated tables keep the order in which the model first named them, a table named again keeping its place |
| ExtractTables.ValidateComplete | DSR_Lite/utils/SL/Extract_tables_col.py:366-398 | every stored table the model names, in any case, is recorded under its stored name whenever its entry is accepted |
| ExtractTables.KeepEmptyDiffers | DSR_Lite/utils/SL/Extract_tables_col.py:274-278 | SQLite keeps a known table whose columns all fail the check; MySQL drops it, leaving nothing |
| ExtractTables.RetryFacts | DSR_Lite/utils/SL/Extract_tables_col.py:351-406 | a non-empty result is the last attempt's, every earlier attempt having yielded nothing; an empty result means every attempt was spent |
| ExtractTables.ValidatedTablesFacts | DSR_Lite/utils/SL/Extract_tables_col.py:296-412 | at most ten model calls; tables come only from a stored schema and from the last call made, every earlier call having yielded nothing; no tables means no call or all ten spent |
| ExtractTables.NoSchemaNoCall | DSR_Lite/utils/SL/Extract_tables_col.py:312-327 | a missing or unreadable schema file, or no tables under db_name, gives nothing without calling the model |
| ExtractTables.ValidateColumns | DSR_Lite/utils/SL/Extract_tables_col.py:390-396 | the column loop, equal to its definition |
| ExtractTables.ValidateOne | DSR_Lite/utils/SL/Extract_tables_col.py:366-398 | one pass of the table loop, equal to its definition |
| ExtractTables.ValidateAnswer | DSR_Lite/utils/SL/Extract_tables_col.py:364-398 | the table loop over one answer, equal to its definition |
| ExtractTables.Attempt | DSR_Lite/utils/SL/Extract_tables_col.py:355-362 | one call and its validation; a failed or empty parse yields nothing |
| ExtractTables.GetSlFunc | DSR_Lite/utils/SL/Extract_tables_col.py:296-412 | Get_SL_func_sqlite, and Get_SL_func_mysql with keepEmpty off, equal to its definition |
| ExtractTables.SnowUncheckedFirst | DSR_Lite/utils/SL/Extract_tables_col.py:87-102 | without the column check the first parsed map's tables come back with no columns, or nothing when that map is empty |
| ExtractTables.SnowCheckedFirst | DSR_Lite/utils/SL/Extract_tables_col.py:104-117 | with the column check the first parsed map that lists no column ends the loop with its tables, with no columns |
| ExtractTables.SnowCheckedLast | DSR_Lite/utils/SL/Extract_tables_col.py:125-160 | with the column check and every parsed map listing a column, the fallback returns the tables of the last map parsed, with no columns |
| ExtractTables.SnowShape | DSR_Lite/utils/SL/Extract_tables_col.py:64-162 | Get_SL_func_snow always returns tables with no columns, taken from a map the model returned |
| ExtractTables.GetSlFuncSnow | DSR_Lite/utils/SL/Extract_tables_col.py:64-162 | Get_SL_func_snow as a loop, equal to its definition |
| TableSeries.MappingValues | DSR_Lite/utils/preprocessor/Get_table_mes_mysql.py:118-156 | every value of the type table is a standard type |
| TableSeries.NormalizeFacts | DSR_Lite/utils/preprocessor/Get_table_mes_mysql.py:118-156 | the normalised type is a standard type, TEXT for a type missing from the table, and the letter case of the data type does not matter |
| TableSeries.NormalizeExamples | DSR_Lite/utils/preprocessor/Get_table_mes_mysql.py:118-156 | a mapped type is found whatever its case, and a type outside the table becomes TEXT |
| TableSeries.ValuesOfMembers | DSR_Lite/utils/preprocessor/Get_table_mes_mysql.py:213-219 | a value is filed under a key exactly when its pair carries that key |
| TableSeries.AppendAt | DSR_Lite/utils/preprocessor/Get_table_mes_mysql.py:216-218 | appending a value under one key keeps every group in step with the values filed under its key |
| TableSeries.GroupByAt | DSR_Lite/utils/preprocessor/Get_table_mes_mysql.py:213-219 | a key has a group exactly when some value is filed under it, and the group holds those values in input order |
| TableSeries.GroupByDistinct | DSR_Lite/utils/preprocessor/Get_table_mes_mysql.py:213-219 | each key has one group |
| TableSeries.GroupByFacts | DSR_Lite/utils/preprocessor/Get_table_mes_mysql.py:213-219 | one group per key, listed once, holding exactly the values filed under it, in input order |
| TableSeries.GroupTablesFacts | DSR_Lite/utils/preprocessor/Get_table_mes_mysql.py:207-219 | group_tables_by_series partitions the names: each lands in the group of its digit-free name and no other, every group is non-empty and holds only names of its series, in input order |
| TableSeries.GroupTables | DSR_Lite/utils/preprocessor/Get_table_mes_mysql.py:213-219 | the grouping loop, equal to its definition |
| TableSeries.Take | DSR_Lite/utils/preprocessor/Get_table_mes_mysql.py:321 | a prefix of at most the limit asked for |
| TableSeries.GatherFrom | DSR_Lite/utils/preprocessor/Get_table_mes_mysql.py:370-376 | each gathered example comes from one of the tables visited |
| TableSeries.SeriesExamplesFacts | DSR_Lite/utils/preprocessor/Get_table_mes_mysql.py:368-378 | a series column shows at most three examples, each from one of the series' first three tables |
| TableSeries.EntriesFacts | DSR_Lite/utils/preprocessor/Get_table_mes_mysql.py:317-387 | every stored column entry is `[name, key, type, None, examples]` for its column: "Primary Key" exactly for primary keys, a standard type and no description |
| TableSeries.ExtraColumnFacts | DSR_Lite/utils/preprocessor/Get_table_mes_mysql.py:348-353 | a table has an extra column exactly when one of its lower-case column names is missing from the representative, and the one reported is such a name |
| TableSeries.ExtraInfoFacts | DSR_Lite/utils/preprocessor/Get_table_mes_mysql.py:346-354 | extra_cols_info lists each other member at most once, exactly when it has an extra column, with a lower-case column name of that table the representative lacks |
| TableSeries.WithoutMembers | DSR_Lite/utils/preprocessor/Get_table_mes_mysql.py:223 | the similar tables are exactly the members other than the representative |
| TableSeries.GroupByNonEmpty | DSR_Lite/utils/preprocessor/Get_table_mes_mysql.py:231-235 | every group of cols_to_tables is non-empty |
| TableSeries.Notes | DSR_Lite/utils/preprocessor/Get_table_mes_mysql.py:237-248 | one note per extra column |
| TableSeries.LlmDescriptionFacts | DSR_Lite/utils/preprocessor/Get_table_mes_mysql.py:249-291 | the retry loop makes at most five calls: the text is the first answer, from the last call made, every earlier call having failed; otherwise all five calls failed and the template is used after exactly five calls |
| TableSeries.GroupDescriptionFacts | DSR_Lite/utils/preprocessor/Get_table_mes_mysql.py:221-293 | groups of at most five tables get the template without calling the model, followed by notes exactly when some member has an extra column; larger groups make one to five calls, taking the first answer, or the template only after five failed calls |
| TableSeries.SmallDescriptionNotes | DSR_Lite/utils/preprocessor/Get_table_mes_mysql.py:226-249 | the small-group text begins with the template and equals it exactly when no member has an extra column |
| TableSeries.GroupByEmpty | DSR_Lite/utils/preprocessor/Get_table_mes_mysql.py:231-236 | the defaultdict grouping is empty exactly when there are no pairs to group |
| TableSeries.RepresentativeFacts | DSR_Lite/utils/preprocessor/Get_table_mes_mysql.py:336-339 | the representative is a member of its group and precedes every other member |
| TableSeries.RepresentativesDiffer | DSR_Lite/utils/preprocessor/Get_table_mes_mysql.py:311-339 | groups of distinct series have distinct representatives |
| TableSeries.KeepsStored | DSR_Lite/utils/preprocessor/Get_table_mes_mysql.py:389-391 | storing a new representative leaves the earlier stored groups as they were |
| TableSeries.RepresentativeFresh | DSR_Lite/utils/preprocessor/Get_table_mes_mysql.py:311-391 | the next group's representative is not stored yet |
| TableSeries.StoreSingleExtends | DSR_Lite/utils/preprocessor/Get_table_mes_mysql.py:333 | storing a single table adds its columns and changes nothing else |
| TableSeries.StoreSeriesExtends | DSR_Lite/utils/preprocessor/Get_table_mes_mysql.py:389-391 | storing a series adds its columns, members and description under the representative and changes nothing else |
| TableSeries.AddGroupFacts | DSR_Lite/utils/preprocessor/Get_table_mes_mysql.py:311-391 | one pass of the group loop stores the group's record under its representative and changes nothing else |
| TableSeries.KeysStep | DSR_Lite/utils/preprocessor/Get_table_mes_mysql.py:311-391 | one pass keeps each key listed once, the stored tables representatives, and members and descriptions for the same series |
| TableSeries.StoredStep | DSR_Lite/utils/preprocessor/Get_table_mes_mysql.py:311-391 | one pass keeps every earlier group stored and stores the new one |
| TableSeries.StoredKept | DSR_Lite/utils/preprocessor/Get_table_mes_mysql.py:311-391 | an earlier group stays stored after one more pass |
| TableSeries.ProcessHolds | DSR_Lite/utils/preprocessor/Get_table_mes_mysql.py:311-391 | after the loop every group is stored under its representative, each key once |
| TableSeries.GroupIsSeries | DSR_Lite/utils/preprocessor/Get_table_mes_mysql.py:213-219 | the group filed under a series key is the series of its members |
| TableSeries.ProcessTableSeriesHolds | DSR_Lite/utils/preprocessor/Get_table_mes_mysql.py:295-394 | process_table_series stores every group of the input |
| TableSeries.NameStored | DSR_Lite/utils/preprocessor/Get_table_mes_mysql.py:295-394 | each table is in its series, and that series is stored |
| TableSeries.StoredIsRepresentative | DSR_Lite/utils/preprocessor/Get_table_mes_mysql.py:295-394 | each stored table is the representative of a series of the input |
| TableSeries.ProcessTableSeriesFacts | DSR_Lite/utils/preprocessor/Get_table_mes_mysql.py:295-394 | every table is covered by the entry of its series, stored under the series' least name; the stored names are exactly such representatives, listed once; member lists and descriptions exist for the same tables, all of them stored |
| TableSeries.SingleColumns | DSR_Lite/utils/preprocessor/Get_table_mes_mysql.py:317-331 | the column loop of a single table, equal to its definition |
| TableSeries.AggregateExamples | DSR_Lite/utils/preprocessor/Get_table_mes_mysql.py:370-377 | the example loop with its early exit, equal to its definition |
| TableSeries.SeriesColumns | DSR_Lite/utils/preprocessor/Get_table_mes_mysql.py:366-387 | the column loop of a series' representative, equal to its definition |
| TableSeries.ExtraColsInfo | DSR_Lite/utils/preprocessor/Get_table_mes_mysql.py:346-354 | the loop filling extra_cols_info, equal to its definition |
| TableSeries.DescribeGroup | DSR_Lite/utils/preprocessor/Get_table_mes_mysql.py:221-293 | _generate_table_group_description with its retry loop, equal to its definition |
| TableSeries.ProcessGroup | DSR_Lite/utils/preprocessor/Get_table_mes_mysql.py:312-391 | one pass of the group loop, equal to its definition |
| TableSeries.ProcessTables | DSR_Lite/utils/preprocessor/Get_table_mes_mysql.py:295-394 | process_table_series, equal to its definition |
| Text.RemoveDigitsNoDigit | DSR_Lite/utils/preprocessor/Get_table_mes_mysql.py:207-211 | no digit is left after remove_digits |
| Text.RemoveDigitsIdempotent | DSR_Lite/utils/preprocessor/Get_table_mes_mysql.py:207-211 | removing digits twice is removing them once |
| Text.RemoveDigitsLower | DSR_Lite/utils/SL/Get_SL.py:98 | removing digits and lower-casing commute, so the series name of a key does not depend on the order of the two steps |
| Text.StripIsStripped | DSR_Lite/utils/SL/Get_SL.py:126-127 | strip leaves no white space at either end and returns a piece of its input |
| Sorting.SortFacts | DSR_Lite/utils/SL/Get_SL.py:96 | sorted returns its input's elements in ascending order |
| Sorting.SortPermutationInvariant | DSR_Lite/utils/preprocessor/Get_table_mes_mysql.py:338 | the sorted series does not depend on the order the tables were listed in |

## Left out

- Query execution (`execute_*_query`, `db_interface`), with its timeouts and process pool, is not part of this model: it is driver I/O and concurrency.
- `LLM_output`, `extract_and_parse_json`, the pymysql metadata queries and `get_column_examples` are foreign calls. They become oracle parameters; prompt texts, `log_llm_io`, `logger_status` and every `print` are not modelled.
- File loading (`open`, `json.load`, `pickle.load`, `os.path` look-ups, the case-insensitive directory search) is not modelled; a file is given as missing, unparsable or parsed.
- `get_token_count` needs a tokenizer; token counts are inputs to the budget rule.
- `get_tables_ddl_sqlite` reads `sqlite_master`; neither it nor its copy in Get_SL.py is part of this model. That copy builds its path from the module global `db_name`, which only the `__main__` loop of Get_SL.py binds (Get_SL.py:1033); the model follows such a script run, in which SL_workflow_min's SQLite DDL text is bound. Nor are `process_database_mysql`, `get_foreign_keys`, Prompt.py, Get_DB.py or the `__main__` drivers.
- `Text.Lower` / `Text.Upper`: Python's case mapping is modelled on ASCII letters only, and `\d` matches ASCII digits only.
- `SchemaLinking.Workflow`: SL_workflow's hand-over to SL_workflow_min is returned as `RefineWith` rather than run, because the second call draws on the same replies and on token counts of a schema text the model does not render. When `logger_status` is not bound, every attempt raises; that depends on how the module is loaded and is not modelled. The table list and the token counts of the M-Schema and DDL texts are inputs, so an exception raised while building those texts (Get_SL.py:830-839: a missing or unparsable schema file, a schema that is not an object) is not part of the result.
- `SchemaLinking.MinWorkflow`: `dbTables`, the list the per-table fallback enumerates, is a parameter. Whether the DDL text is bound is the parameter `ddlBound`; the UnboundLocalError that an unbound text raises when it is counted is the result `None` (and `Unbound` for `SchemaLinking.Workflow`, whose text is unbound only for a db_type outside the five engine names). For MySQL and Doris, SL_workflow_old uses the BigQuery enumerator, and the model does not tie that choice to the engine. `MinBindsDdl` counts SQLite as binding its DDL text, as in a `__main__` run of Get_SL.py; when the module is imported instead, `db_name` is unbound and the SQLite DDL call at Get_SL.py:681 raises NameError before the budget check, which is not modelled. The table list and the token counts are inputs, so an exception raised while building the M-Schema or DDL text (Get_SL.py:676-681) is not part of the result either.
- Column entries: every field of a column entry is a string, and a relational entry (`RelationalSchema.Column`) has exactly the five fields the preprocessor writes (see `TableSeries.EntriesFacts`). A JSON null, a list-valued field and a relational entry of another length are not representable.
- `RelationalSchema.MSchema`: the ValueError that unpacking a column entry of other than five fields raises (Database_Interface.py:570), the AttributeError of `col[0].lower()` on a null name (:561) and the "None" Python prints for a null name or type are not modelled, by the column-entry restriction above.
- `WarehouseSchema.FormatColumns`: a null name or type, which the source prints as "None", and a list-valued `col_examples`, on which `.replace` raises (Database_Interface.py:952), are not representable, by the column-entry restriction above.
- `Ddl.MySqlDdl`: `get_tables_ddl_mysql` accepts entries of three or more fields and skips shorter ones or ones that are not lists (Database_Interface.py:1259-1261); the model takes the five-field `Column`, so those skips are not modelled, nor the empty result its `except` gives when a null type makes `.upper()` raise.
- `Ddl.MySqlColumnDefinitions`: restricted to five-field string entries as `Ddl.MySqlDdl` above, so the skipping of short entries and the raise on a null type are not modelled.
- `SchemaLinking.TableNames`: the two definitions of `get_table_mysql` differ; the second, which is the one Python keeps, is modelled. The `db_type` check that raises on an engine other than mysql or doris is not modelled.
- `ExtractTables.GetSlFuncSnow`: with `check_columns` on, a reply whose map lists a column raises before any column is matched, because the schema's column set is bound only after the loop. The model follows that. The pickle file read after the loop is not modelled, and neither is a reply that parses to a non-map and resets the last parsed map.
- `ExtractTables.GetSlFunc`: column names in the model's answer are taken to be strings; a non-string one raises in the source.
- `TableSeries.ExtraColumn`: `next(iter(extra_cols))` depends on the hash order of a Python set; the model reports the first such column in schema order.
- `TableSeries.DescribeGroup`: the prompt and the JSON of `extra_cols_info` shown to the model are not modelled, nor is the `retry_delay` sleep. After five failed calls the source's fallback is the template without the extra-column notes, and the model follows the code there.
- `TableSeries.Sources`: the per-table column query and the example query are functions of the table (and column); that each query is made once per call is not tracked.
- `DbIdent.SqlCompletion`: the prompt and the model's SQL rewriting are not modelled; the replies are given.
