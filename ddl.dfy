/** The CREATE TABLE text the model is shown when the M-Schema text is too
    long (utils/Database_Interface.py): `generate_ddl_from_json` for
    Snowflake, `get_tables_ddl_mysql` for MySQL and Doris, and
    `generate_ddl_from_json_bigquery`. Each walks the parsed schema file in
    file order, translates the stored column types through a per-back-end
    table, and keeps the tables the optional table list selects. */
module Ddl {
  import opened Basics
  import opened Text
  import opened Dicts
  import opened Series
  import DbIdent
  import RelationalSchema
  import opened WarehouseSchema

  // ----- type maps -----

  const SnowTypes: Dict<string, string> :=
    [("TEXT", "TEXT"), ("NUMBER", "INTEGER"), ("FLOAT", "REAL"), ("DATE", "DATE"), ("TIME", "TIME")]

  const MySqlTypes: Dict<string, string> :=
    [("TEXT", "TEXT"), ("NUMBER", "INT"), ("FLOAT", "DOUBLE"), ("DATE", "DATE"), ("TIME", "TIME")]

  const BqTypes: Dict<string, string> :=
    [("STRING", "STRING"), ("TEXT", "STRING"),
     ("NUMBER", "INT64"), ("INTEGER", "INT64"),
     ("FLOAT", "FLOAT64"), ("REAL", "FLOAT64"),
     ("DATE", "DATE"), ("TIME", "TIME"),
     ("TIMESTAMP", "TIMESTAMP"), ("DATETIME", "DATETIME"),
     ("BOOLEAN", "BOOL"), ("GEOGRAPHY", "GEOGRAPHY")]

  /** Longer BigQuery types (nested records) are shown as one placeholder. */
  const ComplexTypeThreshold: nat := 50

  lemma BqTypesShort()
    ensures forall v :: v in Values(BqTypes) ==> |v| <= ComplexTypeThreshold
  {
  }

  /** Snowflake: the upper-cased type is looked up; an unknown type is kept
      as stored, letter case included. */
  function SnowType(t: string): (r: string)
    ensures Upper(t) == "NUMBER" ==> r == "INTEGER"
    ensures Upper(t) == "FLOAT" ==> r == "REAL"
    ensures Upper(t) == "TEXT" || Upper(t) == "DATE" || Upper(t) == "TIME" ==> r == Upper(t)
    ensures Upper(t) !in Keys(SnowTypes) ==> r == t
  {
    GetOr(SnowTypes, Upper(t), t)
  }

  /** MySQL and Doris: like Snowflake, but an unknown type is upper-cased. */
  function MySqlType(t: string): (r: string)
    ensures Upper(t) == "NUMBER" ==> r == "INT"
    ensures Upper(t) == "FLOAT" ==> r == "DOUBLE"
    ensures Upper(t) != "NUMBER" && Upper(t) != "FLOAT" ==> r == Upper(t)
  {
    GetOr(MySqlTypes, Upper(t), Upper(t))
  }

  /** BigQuery: an empty (or null) type is UNKNOWN, a type longer than the
      threshold is COMPLEX_TYPE, anything else is looked up upper-cased and
      kept upper-cased when unknown. */
  function BqType(t: string): (r: string)
    ensures t == "" ==> r == "UNKNOWN"
    ensures |t| > ComplexTypeThreshold ==> r == "COMPLEX_TYPE"
    ensures t != "" && |t| <= ComplexTypeThreshold && Upper(t) !in Keys(BqTypes) ==> r == Upper(t)
    ensures |r| <= ComplexTypeThreshold
    ensures r in ["UNKNOWN", "COMPLEX_TYPE", Upper(t)] || r in Values(BqTypes)
  {
    if t != "" && |t| > ComplexTypeThreshold then "COMPLEX_TYPE"
    else if t != "" then
      BqTypesShort();
      GetOrCases(BqTypes, Upper(t), Upper(t));
      GetOr(BqTypes, Upper(t), Upper(t))
    else "UNKNOWN"
  }

  /** The two lookups that ignore the letter case of the stored type. */
  lemma TypeCaseInsensitive(t: string)
    ensures MySqlType(Lower(t)) == MySqlType(t)
    ensures t != "" ==> BqType(Lower(t)) == BqType(t)
  {
    UpperOfLower(t);
  }

  // ----- columns and statements of the two warehouse back ends -----

  datatype Dialect = SnowDialect | BqDialect

  /** One column definition: the quoted name and the translated type. */
  function ColumnDef(d: Dialect, c: ColumnEntry): string
    requires |c| >= 2
  {
    match d
    case SnowDialect => "    \"" + c[0] + "\" " + SnowType(c[1])
    case BqDialect => "    `" + c[0] + "` " + BqType(c[1])
  }

  /** The definition of an entry as a value, so that the list below can be
      reasoned about without unfolding it. */
  function DefOf(d: Dialect): ColumnEntry -> string {
    (c: ColumnEntry) => if |c| >= 2 then ColumnDef(d, c) else ""
  }

  /** The lines `f` gives for the entries with at least two fields, in
      order. */
  function Defined(cols: seq<ColumnEntry>, f: ColumnEntry -> string): (r: seq<string>)
    ensures |r| <= |cols|
  {
    if cols == [] then []
    else
      var c := cols[|cols| - 1];
      Defined(cols[..|cols| - 1], f) + (if |c| >= 2 then [f(c)] else [])
  }

  lemma {:induction false} DefinedMembers(cols: seq<ColumnEntry>, f: ColumnEntry -> string, line: string)
    ensures line in Defined(cols, f) <==> exists c :: c in cols && |c| >= 2 && line == f(c)
  {
    if cols != [] {
      var p := cols[..|cols| - 1];
      var c := cols[|cols| - 1];
      DefinedMembers(p, f, line);
      assert cols == p + [c];
      if exists e :: e in cols && |e| >= 2 && line == f(e) {
        var e :| e in cols && |e| >= 2 && line == f(e);
        assert e in p || e == c;
      }
    }
  }

  /** The definitions of a column list, in order; an entry of fewer than two
      fields is skipped. */
  function ColumnDefs(d: Dialect, cols: seq<ColumnEntry>): (r: seq<string>)
    ensures |r| <= |cols|
  {
    if cols == [] then []
    else
      var c := cols[|cols| - 1];
      ColumnDefs(d, cols[..|cols| - 1]) + (if |c| >= 2 then [ColumnDef(d, c)] else [])
  }

  lemma {:induction false} ColumnDefsDefined(d: Dialect, cols: seq<ColumnEntry>)
    ensures ColumnDefs(d, cols) == Defined(cols, DefOf(d))
  {
    if cols != [] {
      ColumnDefsDefined(d, cols[..|cols| - 1]);
    }
  }

  /** A definition is produced exactly for the entries with a name and a
      type. */
  lemma {:induction false} ColumnDefsMembers(d: Dialect, cols: seq<ColumnEntry>, line: string)
    ensures line in ColumnDefs(d, cols) <==>
      exists c :: c in cols && |c| >= 2 && line == ColumnDef(d, c)
  {
    ColumnDefsDefined(d, cols);
    DefinedMembers(cols, DefOf(d), line);
  }

  /** The table list as the set of cleaned names; no list (or an empty
      one) selects every table. */
  function IncludeSet(tableList: seq<string>): Option<set<string>> {
    if tableList == [] then None else Some(set t | t in tableList :: DbIdent.CleanTableName(t))
  }

  predicate Selected(wanted: Option<set<string>>, full: string) {
    wanted.None? || DbIdent.CleanTableName(full) in wanted.value
  }

  /** A table is kept when some listed name cleans to the same string as its
      qualified name, so quoting, digits and letter case do not matter. */
  lemma SelectedIff(tableList: seq<string>, full: string)
    ensures Selected(IncludeSet(tableList), full) <==>
      tableList == [] || exists t :: t in tableList && DbIdent.CleanTableName(t) == DbIdent.CleanTableName(full)
  {
  }

  function Quote(d: Dialect, name: string): string {
    if d.SnowDialect? then "\"" + name + "\"" else "`" + name + "`"
  }

  /** The stripped summary as a trailing comment; no comment for a missing
      or empty summary. */
  function SummaryComment(summary: Dict<string, string>, table: string): string {
    var s := GetOr(summary, table, "");
    if s == "" then "" else "\n/*\n" + Strip(s) + "\n*/\n"
  }

  function Statement(quoted: string, defs: seq<string>, comment: string): string {
    "CREATE TABLE " + quoted + " (\n" + JoinWith(",\n", defs) + "\n);\n" + comment
  }

  /** One table's statement, paired with its qualified name, when the table
      is selected; BigQuery also drops a table without definitions. */
  function TableDdl(d: Dialect, prefix: string, wanted: Option<set<string>>,
                    entry: (string, seq<ColumnEntry>), summary: Dict<string, string>): seq<(string, string)> {
    var full := prefix + "." + entry.0;
    var defs := ColumnDefs(d, entry.1);
    if Selected(wanted, full) && (d.SnowDialect? || defs != []) then
      [(full, Statement(Quote(d, full), defs, SummaryComment(summary, entry.0)))]
    else []
  }

  /** The statements of one schema's (one dataset's) tables, in file order. */
  function TableDdls(d: Dialect, prefix: string, wanted: Option<set<string>>,
                     tables: Dict<string, seq<ColumnEntry>>, summary: Dict<string, string>): seq<(string, string)> {
    if tables == [] then []
    else
      TableDdls(d, prefix, wanted, tables[..|tables| - 1], summary)
        + TableDdl(d, prefix, wanted, tables[|tables| - 1], summary)
  }

  /** The table `entry` gets a statement under the name `n`. */
  predicate Emitted(d: Dialect, prefix: string, wanted: Option<set<string>>, entry: (string, seq<ColumnEntry>), n: string) {
    n == prefix + "." + entry.0 && Selected(wanted, n) && (d.SnowDialect? || ColumnDefs(d, entry.1) != [])
  }

  /** Some table of the list gets a statement under the name `n`. */
  predicate Emits(d: Dialect, prefix: string, wanted: Option<set<string>>,
                  tables: Dict<string, seq<ColumnEntry>>, n: string) {
    exists j :: 0 <= j < |tables| && Emitted(d, prefix, wanted, tables[j], n)
  }

  lemma TableDdlNames(d: Dialect, prefix: string, wanted: Option<set<string>>,
                      entry: (string, seq<ColumnEntry>), summary: Dict<string, string>, n: string)
    ensures n in Keys(TableDdl(d, prefix, wanted, entry, summary)) <==> Emitted(d, prefix, wanted, entry, n)
  {
    var full := prefix + "." + entry.0;
    if Emitted(d, prefix, wanted, entry, full) {
      assert Keys(TableDdl(d, prefix, wanted, entry, summary)) == [full];
    } else {
      assert TableDdl(d, prefix, wanted, entry, summary) == [];
    }
  }

  lemma {:induction false} TableDdlsNames(d: Dialect, prefix: string, wanted: Option<set<string>>,
                                          tables: Dict<string, seq<ColumnEntry>>, summary: Dict<string, string>, n: string)
    ensures n in Keys(TableDdls(d, prefix, wanted, tables, summary)) <==> Emits(d, prefix, wanted, tables, n)
  {
    if tables != [] {
      var p := tables[..|tables| - 1];
      var e := tables[|tables| - 1];
      TableDdlsNames(d, prefix, wanted, p, summary, n);
      TableDdlNames(d, prefix, wanted, e, summary, n);
      KeysConcat(TableDdls(d, prefix, wanted, p, summary), TableDdl(d, prefix, wanted, e, summary));
      EmitsSnoc(d, prefix, wanted, tables, n);
    }
  }

  lemma EmitsSnoc(d: Dialect, prefix: string, wanted: Option<set<string>>,
                  tables: Dict<string, seq<ColumnEntry>>, n: string)
    requires tables != []
    ensures Emits(d, prefix, wanted, tables, n) <==>
      Emits(d, prefix, wanted, tables[..|tables| - 1], n) || Emitted(d, prefix, wanted, tables[|tables| - 1], n)
  {
    var p := tables[..|tables| - 1];
    if Emits(d, prefix, wanted, p, n) {
      var j :| 0 <= j < |p| && Emitted(d, prefix, wanted, p[j], n);
      assert tables[j] == p[j];
    }
    if Emits(d, prefix, wanted, tables, n) {
      var j :| 0 <= j < |tables| && Emitted(d, prefix, wanted, tables[j], n);
      if j < |p| {
        assert p[j] == tables[j];
      }
    }
  }

  // ----- the schema objects of a file (Snowflake) or of a project (BigQuery) -----

  /** The statements of every schema object in file order; a value that is
      not an object is skipped. */
  function SchemaDdls(d: Dialect, prefix: string, wanted: Option<set<string>>, ds: Dict<string, Content>): seq<(string, string)> {
    if ds == [] then []
    else
      var c := ds[|ds| - 1].1;
      SchemaDdls(d, prefix, wanted, ds[..|ds| - 1])
        + (if c.Schema? then TableDdls(d, prefix, wanted, c.tables, c.summary) else [])
  }

  predicate SchemaEmits(d: Dialect, prefix: string, wanted: Option<set<string>>, c: Content, n: string) {
    c.Schema? && Emits(d, prefix, wanted, c.tables, n)
  }

  predicate SchemasEmit(d: Dialect, prefix: string, wanted: Option<set<string>>, ds: Dict<string, Content>, n: string) {
    exists i :: 0 <= i < |ds| && SchemaEmits(d, prefix, wanted, ds[i].1, n)
  }

  /** A statement names a selected table of some schema object, and every
      selected table of every schema object gets one. */
  lemma {:induction false} SchemaDdlsNames(d: Dialect, prefix: string, wanted: Option<set<string>>, ds: Dict<string, Content>, n: string)
    ensures n in Keys(SchemaDdls(d, prefix, wanted, ds)) <==> SchemasEmit(d, prefix, wanted, ds, n)
  {
    if ds != [] {
      var p := ds[..|ds| - 1];
      var c := ds[|ds| - 1].1;
      var last := if c.Schema? then TableDdls(d, prefix, wanted, c.tables, c.summary) else [];
      SchemaDdlsNames(d, prefix, wanted, p, n);
      KeysConcat(SchemaDdls(d, prefix, wanted, p), last);
      if c.Schema? {
        TableDdlsNames(d, prefix, wanted, c.tables, c.summary, n);
      }
      assert n in Keys(last) <==> SchemaEmits(d, prefix, wanted, c, n);
      SchemasEmitSnoc(d, prefix, wanted, ds, n);
    }
  }

  lemma SchemasEmitSnoc(d: Dialect, prefix: string, wanted: Option<set<string>>, ds: Dict<string, Content>, n: string)
    requires ds != []
    ensures SchemasEmit(d, prefix, wanted, ds, n) <==>
      SchemasEmit(d, prefix, wanted, ds[..|ds| - 1], n) || SchemaEmits(d, prefix, wanted, ds[|ds| - 1].1, n)
  {
    var p := ds[..|ds| - 1];
    if SchemasEmit(d, prefix, wanted, p, n) {
      var i :| 0 <= i < |p| && SchemaEmits(d, prefix, wanted, p[i].1, n);
      assert ds[i] == p[i];
    }
    if SchemasEmit(d, prefix, wanted, ds, n) {
      var i :| 0 <= i < |ds| && SchemaEmits(d, prefix, wanted, ds[i].1, n);
      if i < |p| {
        assert p[i] == ds[i];
      }
    }
  }

  /** `generate_ddl_from_json` for Snowflake: every table of every schema
      object under `<db_id>.<table>`, the statements joined by a newline. */
  function SnowDdlText(dbId: string, file: Loaded<Dict<string, Content>>, tableList: seq<string>): Result<string, RenderError> {
    match file
    case Missing => Failure(FileNotFound)
    case Malformed => Failure(LoadFailed)
    case Parsed(all) => Success(JoinWith("\n", Values(SchemaDdls(SnowDialect, dbId, IncludeSet(tableList), all))))
  }

  // ----- BigQuery -----

  /** Every dataset of every project, each table under `<project>.<table>`. */
  function BqDdls(wanted: Option<set<string>>, all: Dict<string, Project>): seq<(string, string)> {
    if all == [] then []
    else
      var p := all[|all| - 1];
      BqDdls(wanted, all[..|all| - 1]) + (if p.1.Project? then SchemaDdls(BqDialect, p.0, wanted, p.1.datasets) else [])
  }

  /** `generate_ddl_from_json_bigquery`: an empty file raises, otherwise the
      statements joined by a newline. */
  function BqDdlText(file: Loaded<Dict<string, Project>>, tableList: seq<string>): Result<string, RenderError> {
    match file
    case Missing => Failure(FileNotFound)
    case Malformed => Failure(LoadFailed)
    case Parsed(all) =>
      if all == [] then Failure(EmptySchema)
      else Success(JoinWith("\n", Values(BqDdls(IncludeSet(tableList), all))))
  }

  predicate ProjectEmits(wanted: Option<set<string>>, p: (string, Project), n: string) {
    p.1.Project? && SchemasEmit(BqDialect, p.0, wanted, p.1.datasets, n)
  }

  /** A BigQuery statement is named `<project>.<table>` after a selected
      table, with at least one column definition, of some dataset of that
      project; the dataset name is not part of it. */
  lemma {:induction false} BqDdlsNames(wanted: Option<set<string>>, all: Dict<string, Project>, n: string)
    ensures n in Keys(BqDdls(wanted, all)) <==> exists i :: 0 <= i < |all| && ProjectEmits(wanted, all[i], n)
  {
    if all != [] {
      var p := all[..|all| - 1];
      var q := all[|all| - 1];
      var last := if q.1.Project? then SchemaDdls(BqDialect, q.0, wanted, q.1.datasets) else [];
      BqDdlsNames(wanted, p, n);
      KeysConcat(BqDdls(wanted, p), last);
      if q.1.Project? {
        SchemaDdlsNames(BqDialect, q.0, wanted, q.1.datasets, n);
      }
      assert n in Keys(last) <==> ProjectEmits(wanted, q, n);
      if exists i :: 0 <= i < |p| && ProjectEmits(wanted, p[i], n) {
        var i :| 0 <= i < |p| && ProjectEmits(wanted, p[i], n);
        assert all[i] == p[i];
      }
      if exists i :: 0 <= i < |all| && ProjectEmits(wanted, all[i], n) {
        var i :| 0 <= i < |all| && ProjectEmits(wanted, all[i], n);
        if i < |p| {
          assert p[i] == all[i];
        }
      }
    }
  }

  // ----- MySQL and Doris -----

  function MySqlColumnDef(c: RelationalSchema.Column): string {
    "    `" + c.name + "` " + MySqlType(c.colType) + (if c.pk == "Primary Key" then " PRIMARY KEY" else "")
  }

  function MySqlStatement(name: string, cols: seq<RelationalSchema.Column>): string {
    "CREATE TABLE `" + name + "` (\n" + JoinWith(",\n", MapSeq(MySqlColumnDef, cols)) + "\n);\n"
  }

  /** One statement per listed name that is a table of the database, in
      list order; other names are skipped. */
  function MySqlDdls(tables: Dict<string, seq<RelationalSchema.Column>>, names: seq<string>): seq<(string, string)> {
    if names == [] then []
    else
      var n := names[|names| - 1];
      MySqlDdls(tables, names[..|names| - 1])
        + (match Get(tables, n) case Some(cols) => [(n, MySqlStatement(n, cols))] case None => [])
  }

  /** The tables a MySQL call asks for: the table list, or every table of
      the database when the list is empty. */
  function MySqlNames(tables: Dict<string, seq<RelationalSchema.Column>>, tableList: seq<string>): seq<string> {
    if tableList != [] then tableList else Keys(tables)
  }

  /** `get_tables_ddl_mysql`: the tables under the database id, each
      statement followed by `;` and a blank line; the empty string when the
      file is missing or unreadable or when no statement is produced. */
  function MySqlDdlText(dbId: string, file: Loaded<RelationalSchema.SchemaFile>, tableList: seq<string>): string {
    match file
    case Missing => ""
    case Malformed => ""
    case Parsed(f) =>
      var tables := GetOr(f.databases, dbId, []);
      var ddls := MySqlDdls(tables, MySqlNames(tables, tableList));
      if ddls == [] then "" else JoinWith(";\n\n", Values(ddls)) + ";"
  }

  /** The statements follow the requested order and skip exactly the names
      that are not tables of the database (compared with letter case). */
  lemma {:induction false} MySqlDdlsNames(tables: Dict<string, seq<RelationalSchema.Column>>, names: seq<string>)
    ensures Sublist(Keys(MySqlDdls(tables, names)), names)
    ensures forall n :: n in Keys(MySqlDdls(tables, names)) <==> n in names && n in Keys(tables)
  {
    if names != [] {
      var p := names[..|names| - 1];
      var n := names[|names| - 1];
      var last := match Get(tables, n) case Some(cols) => [(n, MySqlStatement(n, cols))] case None => [];
      MySqlDdlsNames(tables, p);
      KeysConcat(MySqlDdls(tables, p), last);
      var pk := Keys(MySqlDdls(tables, p));
      var ks := Keys(MySqlDdls(tables, names));
      if Get(tables, n).Some? {
        assert ks == pk + [n];
        assert ks[..|ks| - 1] == pk;
      } else {
        assert ks == pk;
      }
      forall m
        ensures m in ks <==> m in names && m in Keys(tables)
      {
        assert m in names <==> m in p || m == n;
      }
    } else {
      assert Keys(MySqlDdls(tables, names)) == [];
    }
  }

  /** The MySQL text is empty exactly when nothing could be read or no
      requested name is a table; with no table list every table is there. */
  lemma MySqlDdlTextEmpty(dbId: string, file: Loaded<RelationalSchema.SchemaFile>, tableList: seq<string>)
    ensures MySqlDdlText(dbId, file, tableList) == "" <==>
      !file.Parsed? || MySqlDdls(GetOr(file.data.databases, dbId, []), MySqlNames(GetOr(file.data.databases, dbId, []), tableList)) == []
  {
  }

  // ----- the generators, step by step -----

  method ColumnDefinitions(d: Dialect, cols: seq<ColumnEntry>) returns (defs: seq<string>)
    ensures defs == ColumnDefs(d, cols)
  {
    defs := [];
    var i := 0;
    while i < |cols|
      invariant 0 <= i <= |cols|
      invariant defs == ColumnDefs(d, cols[..i])
    {
      assert cols[..i + 1][..i] == cols[..i];
      if |cols[i]| >= 2 {
        defs := defs + [ColumnDef(d, cols[i])];
      }
      i := i + 1;
    }
    TakeAll(cols);
  }

  /** The loop over one schema's (dataset's) tables. */
  method TableStatements(d: Dialect, prefix: string, wanted: Option<set<string>>,
                         tables: Dict<string, seq<ColumnEntry>>, summary: Dict<string, string>)
    returns (out: seq<(string, string)>)
    ensures out == TableDdls(d, prefix, wanted, tables, summary)
  {
    out := [];
    var i := 0;
    while i < |tables|
      invariant 0 <= i <= |tables|
      invariant out == TableDdls(d, prefix, wanted, tables[..i], summary)
    {
      assert tables[..i + 1][..i] == tables[..i];
      var (t, cols) := tables[i];
      var full := prefix + "." + t;
      if Selected(wanted, full) {
        var defs := ColumnDefinitions(d, cols);
        if d.SnowDialect? || defs != [] {
          out := out + [(full, Statement(Quote(d, full), defs, SummaryComment(summary, t)))];
        }
      }
      i := i + 1;
    }
    TakeAll(tables);
  }

  /** The loop over the schema objects of a Snowflake file or of one
      BigQuery project. */
  method SchemaStatements(d: Dialect, prefix: string, wanted: Option<set<string>>, ds: Dict<string, Content>)
    returns (out: seq<(string, string)>)
    ensures out == SchemaDdls(d, prefix, wanted, ds)
  {
    out := [];
    var i := 0;
    while i < |ds|
      invariant 0 <= i <= |ds|
      invariant out == SchemaDdls(d, prefix, wanted, ds[..i])
    {
      assert ds[..i + 1][..i] == ds[..i];
      var c := ds[i].1;
      if c.Schema? {
        var more := TableStatements(d, prefix, wanted, c.tables, c.summary);
        out := out + more;
      }
      i := i + 1;
    }
    TakeAll(ds);
  }

  /** `generate_ddl_from_json` for Snowflake. */
  method SnowDdl(dbId: string, file: Loaded<Dict<string, Content>>, tableList: seq<string>)
    returns (r: Result<string, RenderError>)
    ensures r == SnowDdlText(dbId, file, tableList)
  {
    if file.Missing? {
      return Failure(FileNotFound);
    }
    if file.Malformed? {
      return Failure(LoadFailed);
    }
    var statements := SchemaStatements(SnowDialect, dbId, IncludeSet(tableList), file.data);
    return Success(JoinWith("\n", Values(statements)));
  }

  /** `generate_ddl_from_json_bigquery`. */
  method BqDdl(file: Loaded<Dict<string, Project>>, tableList: seq<string>) returns (r: Result<string, RenderError>)
    ensures r == BqDdlText(file, tableList)
  {
    if file.Missing? {
      return Failure(FileNotFound);
    }
    if file.Malformed? {
      return Failure(LoadFailed);
    }
    var all := file.data;
    if all == [] {
      return Failure(EmptySchema);
    }
    var wanted := IncludeSet(tableList);
    var statements: seq<(string, string)> := [];
    var i := 0;
    while i < |all|
      invariant 0 <= i <= |all|
      invariant statements == BqDdls(wanted, all[..i])
    {
      assert all[..i + 1][..i] == all[..i];
      var p := all[i];
      if p.1.Project? {
        var more := SchemaStatements(BqDialect, p.0, wanted, p.1.datasets);
        statements := statements + more;
      }
      i := i + 1;
    }
    TakeAll(all);
    return Success(JoinWith("\n", Values(statements)));
  }

  method MySqlColumnDefinitions(cols: seq<RelationalSchema.Column>) returns (defs: seq<string>)
    ensures defs == MapSeq(MySqlColumnDef, cols)
  {
    defs := [];
    var i := 0;
    while i < |cols|
      invariant 0 <= i <= |cols|
      invariant defs == MapSeq(MySqlColumnDef, cols[..i])
    {
      defs := defs + [MySqlColumnDef(cols[i])];
      i := i + 1;
    }
    TakeAll(cols);
  }

  /** `get_tables_ddl_mysql` (also used for Doris). */
  method MySqlDdl(dbId: string, file: Loaded<RelationalSchema.SchemaFile>, tableList: seq<string>) returns (text: string)
    ensures text == MySqlDdlText(dbId, file, tableList)
  {
    if !file.Parsed? {
      return "";
    }
    var tables := GetOr(file.data.databases, dbId, []);
    var names := MySqlNames(tables, tableList);
    var statements: seq<(string, string)> := [];
    var i := 0;
    while i < |names|
      invariant 0 <= i <= |names|
      invariant statements == MySqlDdls(tables, names[..i])
    {
      assert names[..i + 1][..i] == names[..i];
      var cols := Get(tables, names[i]);
      if cols.Some? {
        var defs := MySqlColumnDefinitions(cols.value);
        statements := statements + [(names[i], "CREATE TABLE `" + names[i] + "` (\n" + JoinWith(",\n", defs) + "\n);\n")];
      }
      i := i + 1;
    }
    TakeAll(names);
    if statements == [] {
      return "";
    }
    return JoinWith(";\n\n", Values(statements)) + ";";
  }
}
