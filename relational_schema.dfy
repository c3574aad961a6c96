/** The M-Schema text that describes a SQLite, MySQL or Doris database to
    the model (M_Schema_sqlite and M_Schema_mysql in
    utils/Database_Interface.py; the two differ only in the directory they
    read the schema file from). Tables are chosen case-insensitively and
    shown under their stored names; at column level only the requested
    columns are shown; foreign keys are listed between shown tables only. */
module RelationalSchema {
  import opened Basics
  import opened Text
  import opened Dicts

  /** One column entry of the schema file: name, the "Primary Key" marker,
      type, description and example values (a JSON null is ""). */
  datatype Column = Column(name: string, pk: string, colType: string, desc: string, examples: string)

  /** The parsed `<db_id>_M-Schema.json`: per database id its tables, and the
      foreign keys as "table.column" -> "table.column". */
  datatype SchemaFile = SchemaFile(databases: Dict<string, Dict<string, seq<Column>>>,
                                   foreignKeys: Dict<string, string>)

  /** The selection SL: absent (every table), a list of table names, or a
      map from table names to column names. */
  datatype Selection = AllTables | TableList(names: seq<string>) | ColumnMap(columns: Dict<string, seq<string>>)

  datatype SchemaError =
    | MissingDbId        // ValueError: no db_id
    | FileNotFound       // FileNotFoundError: no schema file
    | LoadFailed         // RuntimeError: the file does not parse
    | SelectionNotList   // TypeError at table level
    | SelectionNotDict   // TypeError at column level
    | InvalidLevel       // ValueError: a level other than table or column

  const Header: string := "Note that the 'Examples' are actual values from the column. Some column might contain the values that are directly related to the question. Use it to help you justify which columns or values to use.\n[DB_ID] "

  function LowerAll(names: seq<string>): seq<string> {
    MapSeq(Lower, names)
  }

  function ColKey(c: Column): string {
    Lower(c.name)
  }

  // ----- which tables -----

  /** The stored names of the requested tables that exist, in request order:
      each request goes through the map from lower-cased name to stored name,
      where the last stored name wins. */
  function TablesToProcess(tables: Dict<string, seq<Column>>, requested: seq<string>): seq<string> {
    Pick(IndexBy(Keys(tables), Lower), LowerAll(requested))
  }

  /** A stored name is shown exactly when some request equals it up to
      letter case and no later stored name has the same lower-cased form. */
  lemma TablesToProcessMembers(tables: Dict<string, seq<Column>>, requested: seq<string>, n: string)
    ensures n in TablesToProcess(tables, requested) <==>
      exists t :: t in requested && LastBy(Keys(tables), Lower, Lower(t)) == Some(n)
  {
    PickMembers(Keys(tables), Lower, LowerAll(requested), n);
    if exists w :: w in LowerAll(requested) && LastBy(Keys(tables), Lower, w) == Some(n) {
      var w :| w in LowerAll(requested) && LastBy(Keys(tables), Lower, w) == Some(n);
      var i :| 0 <= i < |requested| && LowerAll(requested)[i] == w;
      assert requested[i] in requested;
    }
    if exists t :: t in requested && LastBy(Keys(tables), Lower, Lower(t)) == Some(n) {
      var t :| t in requested && LastBy(Keys(tables), Lower, Lower(t)) == Some(n);
      var i :| 0 <= i < |requested| && requested[i] == t;
      assert LowerAll(requested)[i] == Lower(t);
    }
  }

  /** Every shown table is a stored table whose name matches a request up
      to letter case; a request no stored name matches shows nothing. */
  lemma TablesToProcessStored(tables: Dict<string, seq<Column>>, requested: seq<string>, n: string)
    requires n in TablesToProcess(tables, requested)
    ensures n in Keys(tables)
    ensures exists t :: t in requested && Lower(t) == Lower(n)
  {
    TablesToProcessMembers(tables, requested, n);
  }

  /** The tables are shown in the order they were requested. */
  lemma TablesToProcessConcat(tables: Dict<string, seq<Column>>, a: seq<string>, b: seq<string>)
    ensures TablesToProcess(tables, a + b) == TablesToProcess(tables, a) + TablesToProcess(tables, b)
  {
    assert LowerAll(a + b) == LowerAll(a) + LowerAll(b);
    PickConcat(IndexBy(Keys(tables), Lower), LowerAll(a), LowerAll(b));
  }

  /** Requests are matched without regard to letter case. */
  lemma TablesToProcessCaseInsensitive(tables: Dict<string, seq<Column>>, requested: seq<string>)
    ensures TablesToProcess(tables, LowerAll(requested)) == TablesToProcess(tables, requested)
  {
    forall i | 0 <= i < |requested|
      ensures LowerAll(LowerAll(requested))[i] == LowerAll(requested)[i]
    {
      LowerIdempotent(requested[i]);
    }
    assert LowerAll(LowerAll(requested)) == LowerAll(requested);
  }

  /** Requesting every stored table (what happens when no selection is
      given) shows them all in stored order, provided no two stored names
      differ only in letter case. */
  lemma TablesToProcessAll(tables: Dict<string, seq<Column>>)
    requires forall i, j :: 0 <= i < j < |tables| ==> Lower(tables[i].0) != Lower(tables[j].0)
    ensures TablesToProcess(tables, Keys(tables)) == Keys(tables)
  {
    var keys := Keys(tables);
    assert forall i :: 0 <= i < |keys| ==> keys[i] == tables[i].0;
    PickAll(keys, Lower);
  }

  // ----- which columns -----

  /** The first selection key that names `table` up to letter case. */
  function FirstKeyMatch(sel: Dict<string, seq<string>>, table: string): (r: Option<nat>)
    ensures r.Some? ==> r.value < |sel| && Lower(sel[r.value].0) == Lower(table)
    ensures r.Some? ==> forall j :: 0 <= j < r.value ==> Lower(sel[j].0) != Lower(table)
    ensures r.None? ==> forall j :: 0 <= j < |sel| ==> Lower(sel[j].0) != Lower(table)
  {
    if sel == [] then None
    else if Lower(sel[0].0) == Lower(table) then Some(0)
    else match FirstKeyMatch(sel[1..], table)
      case None => None
      case Some(i) => Some(i + 1)
  }

  /** The lower-cased column names requested for `table`; none when no
      selection key names it. */
  function RequestedColumns(sel: Dict<string, seq<string>>, table: string): seq<string> {
    match FirstKeyMatch(sel, table)
    case Some(i) => LowerAll(sel[i].1)
    case None => []
  }

  /** The columns shown for a table: all of them at table level; at column
      level the requested ones that exist, in request order, each the last
      stored column with that lower-cased name. */
  function ColumnsToRender(tables: Dict<string, seq<Column>>, sel: Selection, level: string, table: string): seq<Column> {
    var data := GetOr(tables, table, []);
    if level == "column" && sel.ColumnMap? then Pick(IndexBy(data, ColKey), RequestedColumns(sel.columns, table))
    else data
  }

  /** A column is shown at column level exactly when it is the last stored
      column whose lower-cased name was requested. */
  lemma ColumnsToRenderMembers(data: seq<Column>, requested: seq<string>, c: Column)
    ensures c in Pick(IndexBy(data, ColKey), requested) <==>
      exists w :: w in requested && LastBy(data, ColKey, w) == Some(c)
  {
    PickMembers(data, ColKey, requested, c);
  }

  /** Requesting every stored column, when no two names differ only in
      letter case, shows the table unchanged. */
  lemma ColumnsToRenderAll(data: seq<Column>)
    requires forall i, j :: 0 <= i < j < |data| ==> ColKey(data[i]) != ColKey(data[j])
    ensures Pick(IndexBy(data, ColKey), MapSeq(ColKey, data)) == data
  {
    PickAll(data, ColKey);
  }

  // ----- rendering -----

  /** "(name: type[, Primary Key][, description][, Examples: [values]])". */
  function ColumnLine(c: Column): string {
    var parts := [c.name + ": " + c.colType]
      + (if c.pk == "Primary Key" then ["Primary Key"] else [])
      + (if c.desc != "" then [c.desc] else [])
      + (if c.examples != "" then ["Examples: [" + c.examples + "]"] else []);
    "(" + JoinWith(", ", parts) + ")"
  }

  lemma JoinWithPrefix(sep: string, parts: seq<string>)
    requires |parts| >= 1
    ensures StartsWith(JoinWith(sep, parts), parts[0])
  {
  }

  /** A column line opens with the column's name and type and is closed by
      a parenthesis. */
  lemma ColumnLineShape(c: Column)
    ensures StartsWith(ColumnLine(c), "(" + c.name + ": " + c.colType)
    ensures ColumnLine(c)[|ColumnLine(c)| - 1] == ')'
  {
    var parts := [c.name + ": " + c.colType]
      + (if c.pk == "Primary Key" then ["Primary Key"] else [])
      + (if c.desc != "" then [c.desc] else [])
      + (if c.examples != "" then ["Examples: [" + c.examples + "]"] else []);
    JoinWithPrefix(", ", parts);
    var j := JoinWith(", ", parts);
    var head := c.name + ": " + c.colType;
    assert ("(" + j + ")")[..|head| + 1] == "(" + j[..|head|];
  }

  /** The column lines of a table; every one but the last ends with a comma. */
  function ColumnLines(cols: seq<Column>): seq<string> {
    seq(|cols|, i requires 0 <= i < |cols| => ColumnLine(cols[i]) + (if i < |cols| - 1 then "," else ""))
  }

  function TableBlock(name: string, cols: seq<Column>): seq<string> {
    ["# Table: " + name, "["] + ColumnLines(cols) + ["]"]
  }

  function Blocks(tables: Dict<string, seq<Column>>, sel: Selection, level: string, names: seq<string>): seq<string> {
    if names == [] then []
    else
      var last := names[|names| - 1];
      Blocks(tables, sel, level, names[..|names| - 1]) + TableBlock(last, ColumnsToRender(tables, sel, level, last))
  }

  /** `col.split('.')[0].lower()`: the table a foreign-key end belongs to. */
  function FkTable(col: string): string {
    Lower(BeforeFirst(col, '.'))
  }

  function LowerSet(names: seq<string>): set<string> {
    set n | n in names :: Lower(n)
  }

  predicate FkBetween(fk: (string, string), selected: set<string>) {
    FkTable(fk.0) in selected && FkTable(fk.1) in selected
  }

  /** "source = target" for every foreign key whose two tables are selected,
      in file order. */
  function RelevantFks(fks: Dict<string, string>, selected: set<string>): (r: seq<string>)
    ensures |r| <= |fks|
    ensures forall l :: l in r ==> exists i :: 0 <= i < |fks| && FkBetween(fks[i], selected) && l == fks[i].0 + " = " + fks[i].1
    ensures r == [] <==> forall i :: 0 <= i < |fks| ==> !FkBetween(fks[i], selected)
  {
    if fks == [] then []
    else
      var rest := RelevantFks(fks[..|fks| - 1], selected);
      var fk := fks[|fks| - 1];
      assert forall i :: 0 <= i < |fks| - 1 ==> fks[..|fks| - 1][i] == fks[i];
      rest + (if FkBetween(fk, selected) then [fk.0 + " = " + fk.1] else [])
  }

  /** The foreign-key section: only with more than one table shown, and only
      when some foreign key joins two shown tables. */
  function FkSection(fks: Dict<string, string>, shown: seq<string>): seq<string> {
    if |shown| > 1 then
      var relevant := RelevantFks(fks, LowerSet(shown));
      if relevant != [] then ["[Foreign keys]"] + relevant else []
    else []
  }

  lemma FkSectionIff(fks: Dict<string, string>, shown: seq<string>)
    ensures FkSection(fks, shown) != [] <==>
      |shown| > 1 && exists i :: 0 <= i < |fks| && FkBetween(fks[i], LowerSet(shown))
  {
  }

  /** The whole M-Schema text, or the error the source raises. */
  function MSchemaText(dbId: Option<string>, file: Loaded<SchemaFile>, sel: Selection, level: string): Result<string, SchemaError> {
    if dbId.None? then Failure(MissingDbId)
    else match file
      case Missing => Failure(FileNotFound)
      case Malformed => Failure(LoadFailed)
      case Parsed(f) =>
        var tables := GetOr(f.databases, dbId.value, []);
        var sl := if sel.AllTables? then TableList(Keys(tables)) else sel;
        var lvl := if sel.AllTables? then "table" else level;
        if lvl == "table" && !sl.TableList? then Failure(SelectionNotList)
        else if lvl == "column" && !sl.ColumnMap? then Failure(SelectionNotDict)
        else if lvl != "table" && lvl != "column" then Failure(InvalidLevel)
        else
          var shown := TablesToProcess(tables, if sl.TableList? then sl.names else Keys(sl.columns));
          Success(JoinWith("\n", [Header + dbId.value] + Blocks(tables, sl, lvl, shown) + FkSection(f.foreignKeys, shown)))
  }

  /** Which error, if any, the renderer raises. */
  lemma MSchemaErrors(dbId: Option<string>, file: Loaded<SchemaFile>, sel: Selection, level: string)
    ensures MSchemaText(dbId, file, sel, level) == Failure(MissingDbId) <==> dbId.None?
    ensures MSchemaText(dbId, file, sel, level) == Failure(FileNotFound) <==> dbId.Some? && file.Missing?
    ensures MSchemaText(dbId, file, sel, level) == Failure(SelectionNotList) <==>
      dbId.Some? && file.Parsed? && level == "table" && sel.ColumnMap?
    ensures MSchemaText(dbId, file, sel, level) == Failure(SelectionNotDict) <==>
      dbId.Some? && file.Parsed? && level == "column" && sel.TableList?
    ensures MSchemaText(dbId, file, sel, level) == Failure(InvalidLevel) <==>
      dbId.Some? && file.Parsed? && !sel.AllTables? && level != "table" && level != "column"
    ensures MSchemaText(dbId, file, sel, level).Success? <==>
      dbId.Some? && file.Parsed? && (sel.AllTables? || (level == "table" && sel.TableList?) || (level == "column" && sel.ColumnMap?))
  {
  }

  // ----- the renderer, step by step -----

  /** The `for sl_key, sl_val in SL.items()` search, stopping at the first
      key that names the table. */
  method FindRequestedColumns(sel: Dict<string, seq<string>>, table: string) returns (requested: seq<string>)
    ensures requested == RequestedColumns(sel, table)
  {
    requested := [];
    var i := 0;
    while i < |sel|
      invariant 0 <= i <= |sel|
      invariant forall j :: 0 <= j < i ==> Lower(sel[j].0) != Lower(table)
    {
      if Lower(sel[i].0) == Lower(table) {
        requested := LowerAll(sel[i].1);
        return;
      }
      i := i + 1;
    }
  }

  /** Renders the column lines: one line per column in order, every line
      but the last followed by a comma. */
  method RenderColumnLines(cols: seq<Column>) returns (lines: seq<string>)
    ensures |lines| == |cols|
    ensures forall i :: 0 <= i < |cols| - 1 ==> lines[i] == ColumnLine(cols[i]) + ","
    ensures |cols| > 0 ==> lines[|cols| - 1] == ColumnLine(cols[|cols| - 1])
    ensures lines == ColumnLines(cols)
  {
    var colLines: seq<string> := [];
    var i := 0;
    while i < |cols|
      invariant 0 <= i <= |cols|
      invariant |colLines| == i
      invariant forall k :: 0 <= k < i ==> colLines[k] == ColumnLine(cols[k])
    {
      colLines := colLines + [ColumnLine(cols[i])];
      i := i + 1;
    }
    lines := [];
    i := 0;
    while i < |colLines|
      invariant 0 <= i <= |colLines|
      invariant |lines| == i
      invariant forall k :: 0 <= k < i ==> lines[k] == colLines[k] + (if k < |colLines| - 1 then "," else "")
    {
      lines := lines + [colLines[i] + (if i < |colLines| - 1 then "," else "")];
      i := i + 1;
    }
  }

  /** Renders one table: its heading, the chosen columns, the brackets. */
  method RenderTable(tables: Dict<string, seq<Column>>, sel: Selection, level: string, table: string)
    returns (block: seq<string>)
    ensures block == TableBlock(table, ColumnsToRender(tables, sel, level, table))
  {
    var data := GetOr(tables, table, []);
    var cols: seq<Column>;
    if level == "column" && sel.ColumnMap? {
      var requested := FindRequestedColumns(sel.columns, table);
      var colMap := BuildIndex(data, ColKey);
      cols := Collect(colMap, requested);
    } else {
      cols := data;
    }
    var lines := RenderColumnLines(cols);
    block := ["# Table: " + table, "["] + lines + ["]"];
  }

  /** Collects the foreign-key lines between the shown tables. */
  method RenderForeignKeys(fks: Dict<string, string>, shown: seq<string>) returns (lines: seq<string>)
    ensures lines == FkSection(fks, shown)
  {
    lines := [];
    if |shown| > 1 {
      var selected := set n | n in shown :: Lower(n);
      var relevant: seq<string> := [];
      var i := 0;
      while i < |fks|
        invariant 0 <= i <= |fks|
        invariant relevant == RelevantFks(fks[..i], selected)
      {
        assert fks[..i + 1][..i] == fks[..i];
        if FkTable(fks[i].0) in selected && FkTable(fks[i].1) in selected {
          relevant := relevant + [fks[i].0 + " = " + fks[i].1];
        }
        i := i + 1;
      }
      assert fks[..|fks|] == fks;
      if relevant != [] {
        lines := ["[Foreign keys]"] + relevant;
      }
    }
  }

  /** M_Schema_sqlite / M_Schema_mysql. */
  method MSchema(dbId: Option<string>, file: Loaded<SchemaFile>, sel: Selection, level: string)
    returns (r: Result<string, SchemaError>)
    ensures r == MSchemaText(dbId, file, sel, level)
  {
    if dbId.None? {
      return Failure(MissingDbId);
    }
    if file.Missing? {
      return Failure(FileNotFound);
    }
    if file.Malformed? {
      return Failure(LoadFailed);
    }
    var f := file.data;
    var tables := GetOr(f.databases, dbId.value, []);
    var nameMap := BuildIndex(Keys(tables), Lower);
    var sl, lvl := sel, level;
    if sl.AllTables? {
      sl, lvl := TableList(Keys(tables)), "table";
    }
    var requested: seq<string>;
    if lvl == "table" {
      if !sl.TableList? {
        return Failure(SelectionNotList);
      }
      requested := sl.names;
    } else if lvl == "column" {
      if !sl.ColumnMap? {
        return Failure(SelectionNotDict);
      }
      requested := Keys(sl.columns);
    } else {
      return Failure(InvalidLevel);
    }
    var shown := Collect(nameMap, LowerAll(requested));
    var lines := RenderLines(dbId.value, tables, sl, lvl, f.foreignKeys, shown);
    r := Success(JoinWith("\n", lines));
  }

  /** The lines of the schema text: the header, one block per shown table,
      then the foreign keys. */
  method RenderLines(dbId: string, tables: Dict<string, seq<Column>>, sel: Selection, level: string,
                     fks: Dict<string, string>, shown: seq<string>)
    returns (lines: seq<string>)
    ensures lines == [Header + dbId] + Blocks(tables, sel, level, shown) + FkSection(fks, shown)
  {
    lines := [Header + dbId];
    var blocks := RenderBlocks(tables, sel, level, shown);
    lines := lines + blocks;
    var fkLines := RenderForeignKeys(fks, shown);
    lines := lines + fkLines;
  }

  /** One block per shown table, in order. */
  method RenderBlocks(tables: Dict<string, seq<Column>>, sel: Selection, level: string, shown: seq<string>)
    returns (blocks: seq<string>)
    ensures blocks == Blocks(tables, sel, level, shown)
  {
    blocks := [];
    var i := 0;
    while i < |shown|
      invariant 0 <= i <= |shown|
      invariant blocks == Blocks(tables, sel, level, shown[..i])
    {
      var block := RenderTable(tables, sel, level, shown[i]);
      assert shown[..i + 1][..i] == shown[..i];
      assert Blocks(tables, sel, level, shown[..i + 1]) == Blocks(tables, sel, level, shown[..i]) + block;
      blocks := blocks + block;
      i := i + 1;
    }
    assert shown[..|shown|] == shown;
  }
}
