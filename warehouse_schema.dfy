/** The M-Schema text of the warehouse back ends (utils/Database_Interface.py):
    `M_Schema` for Snowflake and `M_Schema_bigquery`. The parsed schema file
    holds, per schema (BigQuery: per project and dataset), the column lists
    of its tables, a `table_Information` map from a surrogate table to the
    group of similar tables it stands for, and a `table_description_summary`
    map from a table to its description. A requested `db.schema.table` name
    is resolved directly or through a surrogate's group, and a surrogate's
    description is shown at most once. */
module WarehouseSchema {
  import opened Basics
  import opened Text
  import opened Dicts
  import opened Series

  /** One entry of a table's column list: the fields of the JSON list, each
      a string; a JSON null field is outside the model. The M-Schema renderers skip entries of
      fewer than four fields, unpack four (name, type, description,
      examples) and raise on more. */
  type ColumnEntry = seq<string>

  /** A `table_Information` value: a list of similar tables, or an object
      whose `similar_tables` list (empty when missing) is used; anything
      else stands for no table. */
  datatype SimilarGroup = Similar(tables: seq<string>) | NotAGroup

  /** A schema (a BigQuery dataset): its tables with their column lists,
      without the two metadata keys, and the two metadata maps. */
  datatype Content =
    | Schema(tables: Dict<string, seq<ColumnEntry>>, info: Dict<string, SimilarGroup>, summary: Dict<string, string>)
    | NotAnObject

  /** A JSON value that is not an object, as far as Python's `x in value`
      sees it: a number, boolean or null cannot be searched (TypeError), a
      list holds its string items, a string holds its substrings. */
  datatype NonObject = Scalar | Items(strings: seq<string>) | Chars(text: string)

  /** A top-level entry of the BigQuery file: a project holding datasets,
      or some other value. */
  datatype Project = Project(datasets: Dict<string, Content>) | NotAProject(value: NonObject)

  datatype RenderError =
    | FileNotFound     // FileNotFoundError: no schema file
    | LoadFailed       // RuntimeError: the file does not parse
    | EmptySchema      // ValueError: the BigQuery file holds nothing
    | NotAnObjectError // AttributeError: `.get` on a value that is not an object
    | BadColumnEntry   // ValueError: a column entry with more than four fields

  // ----- one table -----

  const NoColumnsLine: string := "  (Detailed column information not found for table)"

  /** "(name: type[, description][, Examples: values])". */
  function ColumnText(name: string, colType: string, desc: string, examples: string): string {
    var d := Strip(desc);
    var ex := Strip(RemoveAll(examples, "examples:"));
    var parts := [name + ": " + colType]
      + (if d != "" then [d] else [])
      + (if ex != "" then ["Examples: " + ex] else []);
    "(" + JoinWith(", ", parts) + ")"
  }

  predicate HasLong(cols: seq<ColumnEntry>) {
    exists i :: 0 <= i < |cols| && |cols[i]| > 4
  }

  /** The texts of the four-field entries, in order. */
  function FormattedColumns(cols: seq<ColumnEntry>): (r: seq<string>)
    ensures |r| <= |cols|
  {
    if cols == [] then []
    else
      var c := cols[|cols| - 1];
      FormattedColumns(cols[..|cols| - 1])
        + (if |c| == 4 then [ColumnText(c[0], c[1], c[2], c[3])] else [])
  }

  /** Two-space indent; every line but the last ends with a comma. */
  function IndentedLines(texts: seq<string>): seq<string> {
    seq(|texts|, i requires 0 <= i < |texts| => "  " + texts[i] + (if i < |texts| - 1 then "," else ""))
  }

  /** `_format_table_details`: None when a column entry makes it raise. */
  function FormatTable(display: string, cols: seq<ColumnEntry>, desc: Option<string>): Option<seq<string>> {
    if HasLong(cols) then None
    else
      Some(["# Table: " + display, "["]
        + (if cols == [] then [NoColumnsLine] else IndentedLines(FormattedColumns(cols)))
        + ["]"]
        + (if desc.Some? then ["# Table Description: " + desc.value] else []))
  }

  /** The block opens with the table line and a bracket, closes the bracket
      after the columns, and ends with the description line exactly when a
      description is given; it fails exactly when an entry has too many
      fields. */
  lemma FormatTableShape(display: string, cols: seq<ColumnEntry>, desc: Option<string>)
    ensures FormatTable(display, cols, desc).None? <==> HasLong(cols)
    ensures FormatTable(display, cols, desc).Some? ==>
      var b := FormatTable(display, cols, desc).value;
      |b| >= 3 && b[0] == "# Table: " + display && b[1] == "[" &&
      (desc.Some? ==> b[|b| - 2] == "]" && b[|b| - 1] == "# Table Description: " + desc.value) &&
      (desc.None? ==> b[|b| - 1] == "]")
  {
  }

  /** A table with column entries renders one line per four-field entry. */
  lemma {:induction false} FormattedColumnsCount(cols: seq<ColumnEntry>)
    ensures |FormattedColumns(cols)| == |set i | 0 <= i < |cols| && |cols[i]| == 4|
  {
    if cols != [] {
      var p := cols[..|cols| - 1];
      FormattedColumnsCount(p);
      var n := |cols| - 1;
      var sp := set i | 0 <= i < n && |p[i]| == 4;
      var sc := set i | 0 <= i < |cols| && |cols[i]| == 4;
      if |cols[n]| == 4 {
        assert sc == sp + {n};
      } else {
        assert sc == sp;
      }
    }
  }

  /** Which lines end with a comma: all but the last. */
  lemma IndentedLinesCommas(texts: seq<string>)
    requires forall i :: 0 <= i < |texts| ==> texts[i] != [] && texts[i][|texts[i]| - 1] == ')'
    ensures forall i :: 0 <= i < |texts| ==>
      var l := IndentedLines(texts)[i];
      (l[|l| - 1] == ',' <==> i < |texts| - 1)
  {
  }

  /** A column's text opens with its name and type and closes with a
      parenthesis. */
  lemma ColumnTextShape(name: string, colType: string, desc: string, examples: string)
    ensures StartsWith(ColumnText(name, colType, desc, examples), "(" + name + ": " + colType)
    ensures ColumnText(name, colType, desc, examples)[|ColumnText(name, colType, desc, examples)| - 1] == ')'
  {
    var d := Strip(desc);
    var ex := Strip(RemoveAll(examples, "examples:"));
    var head := name + ": " + colType;
    var parts := [head]
      + (if d != "" then [d] else [])
      + (if ex != "" then ["Examples: " + ex] else []);
    var j := JoinWith(", ", parts);
    assert StartsWith(j, head);
    assert ("(" + j + ")")[..|head| + 1] == "(" + j[..|head|];
  }

  // ----- rendering the resolved requests -----

  /** What a requested name resolves to: skipped, an exception, or a table
      `key` shown as `display`, looked up in the schemas of `scope`. */
  datatype Resolution = Skip | Raise | Found(display: string, scope: Dict<string, Content>, key: string)

  /** One rendered table: the key looked up, the description its schema's
      summary holds for it, the description shown with it, and its lines. */
  datatype Shown = Shown(key: string, available: Option<string>, desc: Option<string>, block: seq<string>)

  /** `schema_data.get(key, [])` in the schema named by the key's first
      dot-part: None when that schema is not an object. */
  function TableColumns(scope: Dict<string, Content>, key: string): Option<seq<ColumnEntry>> {
    match Get(scope, BeforeFirst(key, '.'))
    case None => Some([])
    case Some(c) => if c.Schema? then Some(GetOr(c.tables, key, [])) else None
  }

  /** A non-empty summary entry. */
  function DescOf(summary: Dict<string, string>, key: string): (r: Option<string>)
    ensures r.Some? ==> r.value != "" && Get(summary, key) == Some(r.value)
    ensures r.None? ==> Get(summary, key).None? || Get(summary, key) == Some("")
  {
    match Get(summary, key)
    case Some(d) => if d != "" then Some(d) else None
    case None => None
  }

  /** The key's description in the summary of its schema. */
  function SummaryDescription(scope: Dict<string, Content>, key: string): Option<string> {
    match Get(scope, BeforeFirst(key, '.'))
    case Some(c) => if c.Schema? then DescOf(c.summary, key) else None
    case None => None
  }

  /** `displayed_surrogate_descriptions`: keys already shown with their
      description. */
  function DescribedKeys(shown: seq<Shown>): set<string> {
    set s | s in shown && s.desc.Some? :: s.key
  }

  function RenderStep(prev: seq<Shown>, r: Resolution): Result<seq<Shown>, RenderError> {
    match r
    case Skip => Success(prev)
    case Raise => Failure(NotAnObjectError)
    case Found(display, scope, key) =>
      match TableColumns(scope, key)
      case None => Failure(NotAnObjectError)
      case Some(cols) =>
        var available := SummaryDescription(scope, key);
        var desc := if key != "" && key !in DescribedKeys(prev) then available else None;
        match FormatTable(display, cols, desc)
        case None => Failure(BadColumnEntry)
        case Some(block) => Success(prev + [Shown(key, available, desc, block)])
  }

  /** The tables rendered for the requests, in order; the first exception
      ends the rendering. */
  function Render(rs: seq<Resolution>): (r: Result<seq<Shown>, RenderError>)
    ensures r.Failure? ==> r.error == NotAnObjectError || r.error == BadColumnEntry
  {
    if rs == [] then Success([])
    else
      match Render(rs[..|rs| - 1])
      case Failure(e) => Failure(e)
      case Success(prev) => RenderStep(prev, rs[|rs| - 1])
  }

  function LinesOf(shown: seq<Shown>): seq<string> {
    if shown == [] then [] else LinesOf(shown[..|shown| - 1]) + shown[|shown| - 1].block
  }

  function RenderedLines(rs: seq<Resolution>): Result<seq<string>, RenderError> {
    match Render(rs)
    case Success(shown) => Success(LinesOf(shown))
    case Failure(e) => Failure(e)
  }

  /** The keys of the tables found, in request order. */
  function FoundKeys(rs: seq<Resolution>): seq<string> {
    if rs == [] then []
    else FoundKeys(rs[..|rs| - 1]) + (if rs[|rs| - 1].Found? then [rs[|rs| - 1].key] else [])
  }

  function ShownKeys(shown: seq<Shown>): seq<string> {
    seq(|shown|, i requires 0 <= i < |shown| => shown[i].key)
  }

  /** Whether resolving and rendering this request raises: a request
      resolved to an exception, a table in a schema that is not an object,
      or a column entry with more than four fields. */
  predicate Fails(r: Resolution) {
    r.Raise? || (r.Found? && (TableColumns(r.scope, r.key).None? || HasLong(TableColumns(r.scope, r.key).value)))
  }

  /** Rendering fails exactly when some request raises; otherwise it shows
      one table per found request, in request order. */
  lemma {:induction false} RenderKeys(rs: seq<Resolution>)
    ensures Render(rs).Failure? <==> exists i :: 0 <= i < |rs| && Fails(rs[i])
    ensures Render(rs).Success? ==> ShownKeys(Render(rs).value) == FoundKeys(rs)
  {
    if rs != [] {
      var p := rs[..|rs| - 1];
      RenderKeys(p);
      if Render(p).Success? {
        if exists i :: 0 <= i < |rs| && Fails(rs[i]) {
          var i :| 0 <= i < |rs| && Fails(rs[i]);
          if i < |p| {
            assert p[i] == rs[i];
          }
        }
      } else {
        var i :| 0 <= i < |p| && Fails(p[i]);
        assert rs[i] == p[i];
      }
    }
  }

  /** The description rule: a table is shown with its summary description
      exactly when that description is non-empty, its key is non-empty, and
      the key has not been shown with a description before. */
  lemma {:induction false} RenderDescriptions(rs: seq<Resolution>)
    requires Render(rs).Success?
    ensures forall i :: 0 <= i < |Render(rs).value| ==>
      var s := Render(rs).value[i];
      s.desc == (if s.key != "" && s.key !in DescribedKeys(Render(rs).value[..i]) then s.available else None)
    ensures forall i :: 0 <= i < |Render(rs).value| && Render(rs).value[i].desc.Some? ==>
      Render(rs).value[i].desc.value != ""
  {
    if rs != [] {
      var p := rs[..|rs| - 1];
      RenderDescriptions(p);
      var prev := Render(p).value;
      var shown := Render(rs).value;
      assert shown[..|prev|] == prev;
      forall i | 0 <= i < |prev|
        ensures shown[i] == prev[i] && shown[..i] == prev[..i]
      {
      }
    }
  }

  /** Each description is shown at most once: no two tables shown with a
      description share a key. */
  lemma {:induction false} DescribedOnce(rs: seq<Resolution>)
    requires Render(rs).Success?
    ensures forall i, j :: (0 <= i < j < |Render(rs).value| &&
      Render(rs).value[i].desc.Some? && Render(rs).value[j].desc.Some?) ==>
      Render(rs).value[i].key != Render(rs).value[j].key
  {
    if rs != [] {
      var p := rs[..|rs| - 1];
      DescribedOnce(p);
      var prev := Render(p).value;
      var shown := Render(rs).value;
      if |shown| > |prev| {
        var last := shown[|shown| - 1];
        assert shown[..|prev|] == prev;
        forall i | 0 <= i < |prev| && prev[i].desc.Some? && last.desc.Some?
          ensures prev[i].key != last.key
        {
          assert prev[i] in prev;
        }
      }
    }
  }

  /** Once rendering has failed on a prefix of the requests it has failed
      for all of them, with the same error. */
  lemma {:induction false} RenderPrefixFailure(rs: seq<Resolution>, n: nat, e: RenderError)
    requires n <= |rs| && Render(rs[..n]) == Failure(e)
    ensures Render(rs) == Failure(e)
  {
    if n < |rs| {
      assert rs[..|rs| - 1][..n] == rs[..n];
      RenderPrefixFailure(rs[..|rs| - 1], n, e);
    } else {
      assert rs[..n] == rs;
    }
  }

  /** Rendering one more request after a prefix that rendered. */
  lemma RenderSnoc(rs: seq<Resolution>, i: nat, prev: seq<Shown>)
    requires i < |rs| && Render(rs[..i]) == Success(prev)
    ensures Render(rs[..i + 1]) == RenderStep(prev, rs[i])
  {
    assert rs[..i + 1][..i] == rs[..i];
  }

  /** The step for a table found, from the pieces the renderer computes. */
  lemma RenderFound(rs: seq<Resolution>, i: nat, prev: seq<Shown>, cols: seq<ColumnEntry>, desc: Option<string>, block: seq<string>)
    requires i < |rs| && Render(rs[..i]) == Success(prev)
    requires rs[i].Found? && TableColumns(rs[i].scope, rs[i].key) == Some(cols)
    requires desc == if rs[i].key != "" && rs[i].key !in DescribedKeys(prev) then SummaryDescription(rs[i].scope, rs[i].key) else None
    requires FormatTable(rs[i].display, cols, desc) == Some(block)
    ensures Render(rs[..i + 1]) == Success(prev + [Shown(rs[i].key, SummaryDescription(rs[i].scope, rs[i].key), desc, block)])
  {
    RenderSnoc(rs, i, prev);
  }

  /** One more table shown: its lines follow, and its key counts as
      described when it carries a description. */
  lemma ShownSnoc(shown: seq<Shown>, s: Shown)
    ensures LinesOf(shown + [s]) == LinesOf(shown) + s.block
    ensures DescribedKeys(shown + [s]) == DescribedKeys(shown) + (if s.desc.Some? then {s.key} else {})
  {
    assert (shown + [s])[..|shown|] == shown;
  }

  // ----- the two back ends -----

  function ContentTableKeys(c: Content): seq<string> {
    if c.Schema? then Keys(c.tables) else []
  }

  /** The table keys of the named schemas, in order. */
  function TableKeysIn(all: Dict<string, Content>, names: seq<string>): seq<string> {
    if names == [] then []
    else
      var last := names[|names| - 1];
      TableKeysIn(all, names[..|names| - 1]) + (match Get(all, last) case Some(c) => ContentTableKeys(c) case None => [])
  }

  /** The table keys of every schema, in file order. */
  function SchemasTableKeys(ds: Dict<string, Content>): seq<string> {
    if ds == [] then [] else SchemasTableKeys(ds[..|ds| - 1]) + ContentTableKeys(ds[|ds| - 1].1)
  }

  /** The names of the schemas that are objects, in file order. */
  function SchemaNames(ds: Dict<string, Content>): seq<string> {
    if ds == [] then []
    else SchemaNames(ds[..|ds| - 1]) + (if ds[|ds| - 1].1.Schema? then [ds[|ds| - 1].0] else [])
  }

  /** The first surrogate whose group lists `short`, compared in lower case. */
  function FirstSurrogate(info: Dict<string, SimilarGroup>, short: string): (r: Option<string>)
    ensures r.Some? ==> exists i :: (0 <= i < |info| && info[i].0 == r.value && info[i].1.Similar? &&
      short in MapSeq(Lower, info[i].1.tables))
    ensures r.None? ==> forall i :: 0 <= i < |info| && info[i].1.Similar? ==> short !in MapSeq(Lower, info[i].1.tables)
  {
    if info == [] then None
    else if info[0].1.Similar? && short in MapSeq(Lower, info[0].1.tables) then Some(info[0].0)
    else
      var r := FirstSurrogate(info[1..], short);
      assert forall i :: 1 <= i < |info| ==> info[1..][i - 1] == info[i];
      r
  }

  /** The lower-cased `schema.table` part of a request of at least three
      dot-parts. */
  function ShortName(parts: seq<string>): string
    requires |parts| >= 3
  {
    parts[1] + "." + JoinWith(".", parts[2..])
  }

  /** The Snowflake resolution of one requested name, with the lookup maps
      `schemaMap` (lower-case schema name to stored name) and `tableMap`
      (lower-case table key to stored key). */
  function SnowResolveWith(all: Dict<string, Content>, dbId: string, schemaMap: Dict<string, string>,
                           tableMap: Dict<string, string>, req: string): Resolution {
    SnowResolveParts(all, dbId, schemaMap, tableMap, SplitOn(Lower(req), '.'))
  }

  /** The resolution from the dot-parts of the lower-cased name. */
  function SnowResolveParts(all: Dict<string, Content>, dbId: string, schemaMap: Dict<string, string>,
                            tableMap: Dict<string, string>, parts: seq<string>): Resolution {
    if |parts| < 3 || parts[0] != Lower(dbId) then Skip
    else
      var short := ShortName(parts);
      match Get(tableMap, short)
      case Some(k) => Found(dbId + "." + k, all, k)
      case None =>
        match Get(schemaMap, parts[1])
        case None => Skip
        case Some(s) =>
          if s == "" || s !in Keys(all) then Skip
          else
            var c := GetOr(all, s, NotAnObject);
            if c.NotAnObject? then Raise
            else
              match FirstSurrogate(c.info, short)
              case Some(g) => Found(dbId + "." + g, all, g)
              case None => Skip
  }

  function SnowSchemaMap(all: Dict<string, Content>): Dict<string, string> {
    IndexBy(Keys(all), Lower)
  }

  /** Only the schemas the schema map keeps (the last of each lower-case
      name) contribute table keys. */
  function SnowTableMap(all: Dict<string, Content>): Dict<string, string> {
    IndexBy(SnowTableKeys(all), Lower)
  }

  function SnowResolve(all: Dict<string, Content>, dbId: string, req: string): Resolution {
    SnowResolveWith(all, dbId, SnowSchemaMap(all), SnowTableMap(all), req)
  }

  /** `info` maps surrogate `k` to a group listing `short` (in lower case). */
  predicate GroupLists(info: Dict<string, SimilarGroup>, k: string, short: string) {
    exists j :: 0 <= j < |info| && info[j].0 == k && info[j].1.Similar? && short in MapSeq(Lower, info[j].1.tables)
  }

  function SnowTableKeys(all: Dict<string, Content>): seq<string> {
    TableKeysIn(all, Values(SnowSchemaMap(all)))
  }

  /** Names of fewer than three dot-parts, and names of another database,
      are skipped; letter case of the request does not matter. */
  lemma SnowResolveSkips(all: Dict<string, Content>, dbId: string, req: string)
    ensures var parts := SplitOn(Lower(req), '.');
      (|parts| < 3 || parts[0] != Lower(dbId)) ==> SnowResolve(all, dbId, req) == Skip
    ensures SnowResolve(all, dbId, Lower(req)) == SnowResolve(all, dbId, req)
  {
    LowerIdempotent(req);
  }

  /** A found table is shown as `dbId.key`, where the key is a stored table
      key whose lower case is the requested `schema.table`, or a surrogate
      whose group in some schema lists it. */
  lemma SnowResolveFound(all: Dict<string, Content>, dbId: string, req: string)
    requires SnowResolve(all, dbId, req).Found?
    ensures var parts := SplitOn(Lower(req), '.');
      var k := SnowResolve(all, dbId, req).key;
      |parts| >= 3 && SnowResolve(all, dbId, req).display == dbId + "." + k &&
      ((k in SnowTableKeys(all) && Lower(k) == ShortName(parts)) ||
       exists i :: 0 <= i < |all| && all[i].1.Schema? && GroupLists(all[i].1.info, k, ShortName(parts)))
  {
    var parts := SplitOn(Lower(req), '.');
    var short := ShortName(parts);
    IndexByGet(SnowTableKeys(all), Lower, short);
    if Get(SnowTableMap(all), short).None? {
      var s := Get(SnowSchemaMap(all), parts[1]).value;
      var c := GetOr(all, s, NotAnObject);
      var i :| 0 <= i < |all| && all[i] == (s, c);
    }
  }

  /** A requested table stored under a matching key is always found
      directly, under a stored key. */
  lemma SnowDirectFound(all: Dict<string, Content>, dbId: string, req: string, n: nat)
    requires var parts := SplitOn(Lower(req), '.');
      |parts| >= 3 && parts[0] == Lower(dbId) &&
      n < |SnowTableKeys(all)| && Lower(SnowTableKeys(all)[n]) == ShortName(parts)
    ensures SnowResolve(all, dbId, req).Found?
    ensures SnowResolve(all, dbId, req).key in SnowTableKeys(all)
  {
    var parts := SplitOn(Lower(req), '.');
    var keys := SnowTableKeys(all);
    IndexByGet(keys, Lower, ShortName(parts));
    assert LastBy(keys, Lower, ShortName(parts)).Some?;
  }

  function SnowResolutions(all: Dict<string, Content>, dbId: string, sl: seq<string>): seq<Resolution> {
    seq(|sl|, i requires 0 <= i < |sl| => SnowResolve(all, dbId, sl[i]))
  }

  /** Branch A: every table of every schema that is an object, under
      `prefix.key`, with its summary description. */
  function TablesBlocks(prefix: string, tables: Dict<string, seq<ColumnEntry>>, summary: Dict<string, string>): (r: Result<seq<string>, RenderError>)
    ensures r.Failure? ==> r.error == BadColumnEntry
  {
    if tables == [] then Success([])
    else
      var t := tables[|tables| - 1];
      match TablesBlocks(prefix, tables[..|tables| - 1], summary)
      case Failure(e) => Failure(e)
      case Success(lines) =>
        match FormatTable(prefix + "." + t.0, t.1, DescOf(summary, t.0))
        case None => Failure(BadColumnEntry)
        case Some(block) => Success(lines + block)
  }

  function SchemasBlocks(prefix: string, ds: Dict<string, Content>): (r: Result<seq<string>, RenderError>)
    ensures r.Failure? ==> r.error == BadColumnEntry
  {
    if ds == [] then Success([])
    else
      var c := ds[|ds| - 1].1;
      match SchemasBlocks(prefix, ds[..|ds| - 1])
      case Failure(e) => Failure(e)
      case Success(lines) =>
        if c.NotAnObject? then Success(lines)
        else
          match TablesBlocks(prefix, c.tables, c.summary)
          case Failure(e) => Failure(e)
          case Success(more) => Success(lines + more)
  }

  /** `M_Schema` for Snowflake: the requested names are first reduced to
      the first of each series; no request renders every table. */
  function SnowSchemaText(dbId: string, file: Loaded<Dict<string, Content>>, sl: seq<string>): Result<string, RenderError> {
    match file
    case Missing => Failure(FileNotFound)
    case Malformed => Failure(LoadFailed)
    case Parsed(all) =>
      var requests := Firsts(Plain, sl);
      var body := if requests == [] then SchemasBlocks(dbId, all) else RenderedLines(SnowResolutions(all, dbId, requests));
      match body
      case Failure(e) => Failure(e)
      case Success(lines) => Success(JoinWith("\n", ["[DB_ID] " + dbId, "[Schema]"] + lines))
  }

  /** Which error the Snowflake renderer raises. */
  lemma SnowSchemaErrors(dbId: string, file: Loaded<Dict<string, Content>>, sl: seq<string>)
    ensures SnowSchemaText(dbId, file, sl) == Failure(FileNotFound) <==> file.Missing?
    ensures SnowSchemaText(dbId, file, sl) == Failure(LoadFailed) <==> file.Malformed?
    ensures SnowSchemaText(dbId, file, sl) != Failure(EmptySchema)
  {
  }

  /** The BigQuery projects' dataset names and table keys, in file order. */
  function BqDatasetNames(all: Dict<string, Project>): seq<string> {
    if all == [] then []
    else
      var p := all[|all| - 1].1;
      BqDatasetNames(all[..|all| - 1]) + (if p.Project? then SchemaNames(p.datasets) else [])
  }

  function BqTableKeys(all: Dict<string, Project>): seq<string> {
    if all == [] then []
    else
      var p := all[|all| - 1].1;
      BqTableKeys(all[..|all| - 1]) + (if p.Project? then SchemasTableKeys(p.datasets) else [])
  }

  /** `next(k for k in all_data if k.lower() == name)`. */
  function FirstLowerMatch<V>(d: Dict<string, V>, name: string): (r: Option<string>)
    ensures r.Some? ==> r.value in Keys(d) && Lower(r.value) == name
    ensures r.None? ==> forall i :: 0 <= i < |d| ==> Lower(d[i].0) != name
  {
    if d == [] then None
    else if Lower(d[0].0) == name then
      assert Keys(d)[0] == d[0].0;
      Some(d[0].0)
    else
      var r := FirstLowerMatch(d[1..], name);
      assert forall i :: 1 <= i < |d| ==> d[1..][i - 1] == d[i];
      assert r.Some? ==> r.value in Keys(d[1..]) && Keys(d[1..]) == Keys(d)[1..];
      r
  }

  /** The BigQuery resolution of one name, with `datasetMap` (lower-case
      dataset name to stored name) and `tableMap` built over every project.
      The project is the first whose lower-case name is the first part. */
  function BqResolveWith(all: Dict<string, Project>, datasetMap: Dict<string, string>,
                         tableMap: Dict<string, string>, req: string): Resolution {
    BqResolveParts(all, datasetMap, tableMap, SplitOn(Lower(req), '.'))
  }

  /** Python's `x in v` on a value that is not an object; None when it
      raises. */
  function Searched(v: NonObject, x: string): Option<bool> {
    match v
    case Scalar => None
    case Items(xs) => Some(x in xs)
    case Chars(t) => Some(Contains(t, x))
  }

  /** The resolution from the dot-parts of the lower-cased name. */
  function BqResolveParts(all: Dict<string, Project>, datasetMap: Dict<string, string>,
                          tableMap: Dict<string, string>, parts: seq<string>): Resolution {
    if |parts| < 3 then Skip
    else
      match FirstLowerMatch(all, parts[0])
      case None => Skip
      case Some(top) =>
        if top == "" then Skip
        else
          var project := GetOr(all, top, NotAProject(Scalar));
          var short := ShortName(parts);
          match Get(tableMap, short)
          case Some(k) => if project.Project? then Found(top + "." + k, project.datasets, k) else Raise
          case None =>
            match Get(datasetMap, parts[1])
            case None => Skip
            case Some(dsName) =>
              if dsName == "" then Skip
              else if project.NotAProject? then
                (if Searched(project.value, dsName).Some? && !Searched(project.value, dsName).value then Skip else Raise)
              else if dsName !in Keys(project.datasets) then Skip
              else
                var c := GetOr(project.datasets, dsName, NotAnObject);
                if c.NotAnObject? then Raise
                else
                  match FirstSurrogate(c.info, short)
                  case Some(g) => Found(top + "." + g, project.datasets, g)
                  case None => Skip
  }

  /** Under a project that is not an object nothing is found: a request
      that reaches the dataset test is skipped when `in` finds no such
      dataset (an empty list, a string without the name), and raises when
      the value cannot be searched or holds the name, since it cannot then
      be indexed; a table key found in the map raises too. */
  lemma NonObjectProject(all: Dict<string, Project>, datasetMap: Dict<string, string>,
                         tableMap: Dict<string, string>, parts: seq<string>)
    requires |parts| >= 3 && FirstLowerMatch(all, parts[0]).Some? && FirstLowerMatch(all, parts[0]).value != ""
    requires GetOr(all, FirstLowerMatch(all, parts[0]).value, NotAProject(Scalar)).NotAProject?
    ensures var r := BqResolveParts(all, datasetMap, tableMap, parts);
      var v := GetOr(all, FirstLowerMatch(all, parts[0]).value, NotAProject(Scalar)).value;
      var ds := Get(datasetMap, parts[1]);
      && (r == Skip || r == Raise)
      && (r == Skip <==>
            Get(tableMap, ShortName(parts)).None? && (ds.None? || ds.value == "" || Searched(v, ds.value) == Some(false)))
  {
  }

  function BqResolve(all: Dict<string, Project>, req: string): Resolution {
    BqResolveWith(all, IndexBy(BqDatasetNames(all), Lower), IndexBy(BqTableKeys(all), Lower), req)
  }

  /** The request "p2.ds.x", where "ds.x" is no table key, under a
      project "p2" that is not an object while project "p1" holds dataset
      "ds": it is skipped when `in` finds no "ds" in "p2" (an empty list, a
      string without it) and raises otherwise. */
  lemma NonObjectProjectExample(v: NonObject)
    ensures BqResolve([("p1", Project([("ds", Schema([], [], []))])), ("p2", NotAProject(v))], "p2.ds.x") ==
      if Searched(v, "ds") == Some(false) then Skip else Raise
  {
    var all: Dict<string, Project> := [("p1", Project([("ds", Schema([], [], []))])), ("p2", NotAProject(v))];
    ExampleNames();
    ExampleDatasetNames(v);
    ExampleLookups(v);
    ResolveVia(all, "p2.ds.x", [("ds", "ds")], [], ["p2", "ds", "x"]);
    ExampleParts(v);
  }

  lemma ResolveVia(all: Dict<string, Project>, req: string, datasetMap: Dict<string, string>,
                   tableMap: Dict<string, string>, parts: seq<string>)
    requires IndexBy(BqDatasetNames(all), Lower) == datasetMap && IndexBy(BqTableKeys(all), Lower) == tableMap
    requires SplitOn(Lower(req), '.') == parts
    ensures BqResolve(all, req) == BqResolveParts(all, datasetMap, tableMap, parts)
  {
  }

  lemma ExampleParts(v: NonObject)
    requires FirstLowerMatch([("p1", Project([("ds", Schema([], [], []))])), ("p2", NotAProject(v))], "p2") == Some("p2")
    requires GetOr([("p1", Project([("ds", Schema([], [], []))])), ("p2", NotAProject(v))], "p2", NotAProject(Scalar)) == NotAProject(v)
    requires ShortName(["p2", "ds", "x"]) == "ds.x"
    ensures var r := BqResolveParts([("p1", Project([("ds", Schema([], [], []))])), ("p2", NotAProject(v))],
                                    [("ds", "ds")], [], ["p2", "ds", "x"]);
      r == if Searched(v, "ds") == Some(false) then Skip else Raise
  {
    assert Get([("ds", "ds")], "ds") == Some("ds");
    var none: Dict<string, string> := [];
    assert Get(none, "ds.x") == None;
  }

  lemma LowerCased(s: string)
    requires forall i :: 0 <= i < |s| ==> !('A' <= s[i] <= 'Z')
    ensures Lower(s) == s
  {
  }

  lemma ExampleNames()
    ensures SplitOn(Lower("p2.ds.x"), '.') == ["p2", "ds", "x"]
    ensures Lower("p1") == "p1" && Lower("p2") == "p2" && Lower("ds") == "ds"
    ensures ShortName(["p2", "ds", "x"]) == "ds.x"
  {
    LowerCased("p2.ds.x");
    LowerCased("p1");
    LowerCased("p2");
    LowerCased("ds");
    ExampleSplit();
    assert ["p2", "ds", "x"][2..] == ["x"];
    assert JoinWith(".", ["x"]) == "x";
  }

  lemma ExampleSplit()
    ensures SplitOn("p2.ds.x", '.') == ["p2", "ds", "x"]
  {
    var s := "p2.ds.x";
    assert IndexOf(s, '.') == Some(2) by {
      assert s[2] == '.' && '.' !in s[..2];
    }
    assert s[3..] == "ds.x";
    assert IndexOf("ds.x", '.') == Some(2) by {
      assert "ds.x"[2] == '.' && '.' !in "ds.x"[..2];
    }
    assert "ds.x"[3..] == "x";
    assert IndexOf("x", '.') == None;
    assert SplitOn("x", '.') == ["x"];
    assert SplitOn("ds.x", '.') == ["ds"] + SplitOn("x", '.') by {
      assert "ds.x"[..2] == "ds";
    }
    assert SplitOn(s, '.') == ["p2"] + SplitOn("ds.x", '.') by {
      assert s[..2] == "p2";
    }
  }

  lemma ExampleLookups(v: NonObject)
    requires Lower("p1") == "p1" && Lower("p2") == "p2" && Lower("ds") == "ds"
    ensures IndexBy(["ds"], Lower) == [("ds", "ds")] && IndexBy([], Lower) == []
    ensures var all := [("p1", Project([("ds", Schema([], [], []))])), ("p2", NotAProject(v))];
      FirstLowerMatch(all, "p2") == Some("p2") && GetOr(all, "p2", NotAProject(Scalar)) == NotAProject(v)
  {
    assert ["ds"][..0] == [];
    var all: Dict<string, Project> := [("p1", Project([("ds", Schema([], [], []))])), ("p2", NotAProject(v))];
    assert all[1..] == [("p2", NotAProject(v))];
    assert Keys(all) == ["p1", "p2"];
  }

  lemma ExampleDatasetNames(v: NonObject)
    ensures BqDatasetNames([("p1", Project([("ds", Schema([], [], []))])), ("p2", NotAProject(v))]) == ["ds"]
    ensures BqTableKeys([("p1", Project([("ds", Schema([], [], []))])), ("p2", NotAProject(v))]) == []
  {
    var ds: Dict<string, Content> := [("ds", Schema([], [], []))];
    assert ds[..0] == [];
    assert SchemaNames(ds) == ["ds"];
    assert SchemasTableKeys(ds) == [];
    var p1: Dict<string, Project> := [("p1", Project(ds))];
    assert p1[..0] == [];
    assert BqDatasetNames(p1) == ["ds"];
    assert BqTableKeys(p1) == [];
    var all: Dict<string, Project> := [("p1", Project(ds)), ("p2", NotAProject(v))];
    assert all[..1] == p1;
  }

  /** Names of fewer than three dot-parts, and names whose first part names
      no project, are skipped; letter case of the request does not matter. */
  lemma BqResolveSkips(all: Dict<string, Project>, req: string)
    ensures var parts := SplitOn(Lower(req), '.');
      (|parts| < 3 || forall i :: 0 <= i < |all| ==> Lower(all[i].0) != parts[0]) ==> BqResolve(all, req) == Skip
    ensures BqResolve(all, Lower(req)) == BqResolve(all, req)
  {
    LowerIdempotent(req);
  }

  /** A found table is shown under the stored name of the first project
      matching the request, and is a stored table key whose lower case is
      the requested `dataset.table`, or a surrogate whose group in one of
      that project's datasets lists it. */
  lemma BqResolveFound(all: Dict<string, Project>, req: string)
    requires BqResolve(all, req).Found?
    ensures var parts := SplitOn(Lower(req), '.');
      var k := BqResolve(all, req).key;
      |parts| >= 3 && FirstLowerMatch(all, parts[0]).Some? &&
      BqResolve(all, req).display == FirstLowerMatch(all, parts[0]).value + "." + k &&
      ((k in BqTableKeys(all) && Lower(k) == ShortName(parts)) ||
       exists i :: 0 <= i < |BqResolve(all, req).scope| && BqResolve(all, req).scope[i].1.Schema? &&
         GroupLists(BqResolve(all, req).scope[i].1.info, k, ShortName(parts)))
  {
    var parts := SplitOn(Lower(req), '.');
    var short := ShortName(parts);
    IndexByGet(BqTableKeys(all), Lower, short);
    if Get(IndexBy(BqTableKeys(all), Lower), short).None? {
      var top := FirstLowerMatch(all, parts[0]).value;
      var project := GetOr(all, top, NotAProject(Scalar));
      var dsName := Get(IndexBy(BqDatasetNames(all), Lower), parts[1]).value;
      var c := GetOr(project.datasets, dsName, NotAnObject);
      var i :| 0 <= i < |project.datasets| && project.datasets[i] == (dsName, c);
    }
  }

  function BqResolutions(all: Dict<string, Project>, sl: seq<string>): seq<Resolution> {
    seq(|sl|, i requires 0 <= i < |sl| => BqResolve(all, sl[i]))
  }

  function ProjectsBlocks(all: Dict<string, Project>): (r: Result<seq<string>, RenderError>)
    ensures r.Failure? ==> r.error == BadColumnEntry
  {
    if all == [] then Success([])
    else
      var p := all[|all| - 1];
      match ProjectsBlocks(all[..|all| - 1])
      case Failure(e) => Failure(e)
      case Success(lines) =>
        if p.1.NotAProject? then Success(lines)
        else
          match SchemasBlocks(p.0, p.1.datasets)
          case Failure(e) => Failure(e)
          case Success(more) => Success(lines + more)
  }

  /** `M_Schema_bigquery`: the requested names are first reduced to the
      first of each series, ignoring a trailing year or year span. */
  function BqSchemaText(dbId: string, file: Loaded<Dict<string, Project>>, sl: seq<string>): Result<string, RenderError> {
    match file
    case Missing => Failure(FileNotFound)
    case Malformed => Failure(LoadFailed)
    case Parsed(all) =>
      if all == [] then Failure(EmptySchema)
      else
        var requests := Firsts(Dated, sl);
        var body := if requests == [] then ProjectsBlocks(all) else RenderedLines(BqResolutions(all, requests));
        match body
        case Failure(e) => Failure(e)
        case Success(lines) => Success(JoinWith("\n", ["【TASK_ID】" + dbId] + lines))
  }

  /** Which error the BigQuery renderer raises before rendering. */
  lemma BqSchemaErrors(dbId: string, file: Loaded<Dict<string, Project>>, sl: seq<string>)
    ensures BqSchemaText(dbId, file, sl) == Failure(FileNotFound) <==> file.Missing?
    ensures BqSchemaText(dbId, file, sl) == Failure(LoadFailed) <==> file.Malformed?
    ensures BqSchemaText(dbId, file, sl) == Failure(EmptySchema) <==> file.Parsed? && file.data == []
  {
  }

  // ----- failures end the rendering -----

  lemma {:induction false} TablesBlocksPrefixFailure(prefix: string, tables: Dict<string, seq<ColumnEntry>>,
                                                     summary: Dict<string, string>, n: nat, e: RenderError)
    requires n <= |tables| && TablesBlocks(prefix, tables[..n], summary) == Failure(e)
    ensures TablesBlocks(prefix, tables, summary) == Failure(e)
  {
    if n < |tables| {
      assert tables[..|tables| - 1][..n] == tables[..n];
      TablesBlocksPrefixFailure(prefix, tables[..|tables| - 1], summary, n, e);
    } else {
      assert tables[..n] == tables;
    }
  }

  lemma {:induction false} SchemasBlocksPrefixFailure(prefix: string, ds: Dict<string, Content>, n: nat, e: RenderError)
    requires n <= |ds| && SchemasBlocks(prefix, ds[..n]) == Failure(e)
    ensures SchemasBlocks(prefix, ds) == Failure(e)
  {
    if n < |ds| {
      assert ds[..|ds| - 1][..n] == ds[..n];
      SchemasBlocksPrefixFailure(prefix, ds[..|ds| - 1], n, e);
    } else {
      assert ds[..n] == ds;
    }
  }

  lemma {:induction false} ProjectsBlocksPrefixFailure(all: Dict<string, Project>, n: nat, e: RenderError)
    requires n <= |all| && ProjectsBlocks(all[..n]) == Failure(e)
    ensures ProjectsBlocks(all) == Failure(e)
  {
    if n < |all| {
      assert all[..|all| - 1][..n] == all[..n];
      ProjectsBlocksPrefixFailure(all[..|all| - 1], n, e);
    } else {
      assert all[..n] == all;
    }
  }

  // ----- the renderers, step by step -----

  /** The loop over the column entries in `_format_table_details`: None as
      soon as an entry has too many fields. */
  method FormatColumns(cols: seq<ColumnEntry>) returns (r: Option<seq<string>>)
    ensures r.None? <==> HasLong(cols)
    ensures r.Some? ==> r.value == FormattedColumns(cols)
  {
    var formatted: seq<string> := [];
    var i := 0;
    while i < |cols|
      invariant 0 <= i <= |cols|
      invariant formatted == FormattedColumns(cols[..i])
      invariant forall k :: 0 <= k < i ==> |cols[k]| <= 4
    {
      assert cols[..i + 1][..i] == cols[..i];
      var c := cols[i];
      if |c| > 4 {
        return None;
      }
      if |c| == 4 {
        formatted := formatted + [ColumnText(c[0], c[1], c[2], c[3])];
      }
      i := i + 1;
    }
    TakeAll(cols);
    return Some(formatted);
  }

  /** The loop that indents the formatted entries and puts a comma after
      every one but the last. */
  method IndentColumns(formatted: seq<string>) returns (lines: seq<string>)
    ensures lines == IndentedLines(formatted)
  {
    lines := [];
    var j := 0;
    while j < |formatted|
      invariant 0 <= j <= |formatted|
      invariant lines == IndentedLines(formatted)[..j]
    {
      lines := lines + ["  " + formatted[j] + (if j < |formatted| - 1 then "," else "")];
      j := j + 1;
    }
    TakeAll(IndentedLines(formatted));
  }

  /** `_format_table_details`: formats the column entries, then adds the
      indented lines. */
  method FormatTableDetails(display: string, cols: seq<ColumnEntry>, desc: Option<string>)
    returns (r: Option<seq<string>>)
    ensures r == FormatTable(display, cols, desc)
  {
    var columns: seq<string>;
    if |cols| == 0 {
      columns := [NoColumnsLine];
    } else {
      var formatted := FormatColumns(cols);
      if formatted.None? {
        return None;
      }
      columns := IndentColumns(formatted.value);
    }
    var ending := if desc.Some? then ["# Table Description: " + desc.value] else [];
    return Some(["# Table: " + display, "["] + columns + ["]"] + ending);
  }

  /** The loop over the requests, keeping the rendered lines and the set of
      keys already shown with a description. */
  method RenderResolved(rs: seq<Resolution>) returns (r: Result<seq<string>, RenderError>)
    ensures r == RenderedLines(rs)
  {
    var lines: seq<string> := [];
    var displayed: set<string> := {};
    ghost var shown: seq<Shown> := [];
    var i := 0;
    while i < |rs|
      invariant 0 <= i <= |rs|
      invariant Render(rs[..i]) == Success(shown)
      invariant lines == LinesOf(shown)
      invariant displayed == DescribedKeys(shown)
    {
      var res := rs[i];
      if res.Raise? {
        RenderSnoc(rs, i, shown);
        RenderPrefixFailure(rs, i + 1, NotAnObjectError);
        return Failure(NotAnObjectError);
      }
      if res.Skip? {
        RenderSnoc(rs, i, shown);
      } else {
        var key := res.key;
        var cols := TableColumns(res.scope, key);
        if cols.None? {
          RenderSnoc(rs, i, shown);
          RenderPrefixFailure(rs, i + 1, NotAnObjectError);
          return Failure(NotAnObjectError);
        }
        var desc: Option<string> := None;
        if key != "" && key !in displayed {
          desc := SummaryDescription(res.scope, key);
          if desc.Some? {
            displayed := displayed + {key};
          }
        }
        var block := FormatTableDetails(res.display, cols.value, desc);
        if block.None? {
          RenderSnoc(rs, i, shown);
          RenderPrefixFailure(rs, i + 1, BadColumnEntry);
          return Failure(BadColumnEntry);
        }
        var s := Shown(key, SummaryDescription(res.scope, key), desc, block.value);
        RenderFound(rs, i, shown, cols.value, desc, block.value);
        ShownSnoc(shown, s);
        lines := lines + block.value;
        shown := shown + [s];
      }
      i := i + 1;
    }
    assert rs[..|rs|] == rs;
    return Success(lines);
  }

  /** Adds `key.lower(): key` for every key, in order. */
  method AddKeys(m: Dict<string, string>, ghost before: seq<string>, ks: seq<string>, key: string -> string)
    returns (m': Dict<string, string>)
    requires m == IndexBy(before, key)
    ensures m' == IndexBy(before + ks, key)
  {
    m' := m;
    assert before + ks[..0] == before;
    var j := 0;
    while j < |ks|
      invariant 0 <= j <= |ks|
      invariant m' == IndexBy(before + ks[..j], key)
    {
      IndexByStep(before, ks, j, key);
      m' := Put(m', key(ks[j]), ks[j]);
      j := j + 1;
    }
    TakeAll(ks);
  }

  lemma TableKeysInStep(all: Dict<string, Content>, names: seq<string>, i: nat)
    requires i < |names|
    ensures var c := Get(all, names[i]);
      (c.Some? && c.value.Schema?) ==> TableKeysIn(all, names[..i + 1]) == TableKeysIn(all, names[..i]) + Keys(c.value.tables)
    ensures var c := Get(all, names[i]);
      !(c.Some? && c.value.Schema?) ==> TableKeysIn(all, names[..i + 1]) == TableKeysIn(all, names[..i])
  {
    assert names[..i + 1][..i] == names[..i];
  }

  /** One named schema's table keys added to the Snowflake table map. */
  method AddSchemaTables(all: Dict<string, Content>, tm: Dict<string, string>, names: seq<string>, i: nat)
    returns (tm': Dict<string, string>)
    requires i < |names| && tm == IndexBy(TableKeysIn(all, names[..i]), Lower)
    ensures tm' == IndexBy(TableKeysIn(all, names[..i + 1]), Lower)
  {
    TableKeysInStep(all, names, i);
    tm' := tm;
    var c := Get(all, names[i]);
    if c.Some? && c.value.Schema? {
      tm' := AddKeys(tm, TableKeysIn(all, names[..i]), Keys(c.value.tables), Lower);
    }
  }

  /** The Snowflake lookup maps: the schema map, then the table keys of the
      schemas it names. */
  method SnowMaps(all: Dict<string, Content>) returns (schemaMap: Dict<string, string>, tableMap: Dict<string, string>)
    ensures schemaMap == SnowSchemaMap(all) && tableMap == SnowTableMap(all)
  {
    schemaMap := BuildIndex(Keys(all), Lower);
    var names := Values(schemaMap);
    tableMap := [];
    var i := 0;
    while i < |names|
      invariant 0 <= i <= |names|
      invariant tableMap == IndexBy(TableKeysIn(all, names[..i]), Lower)
    {
      tableMap := AddSchemaTables(all, tableMap, names, i);
      i := i + 1;
    }
    TakeAll(names);
  }

  lemma SchemaKeysStep(ds: Dict<string, Content>, j: nat)
    requires j < |ds|
    ensures ds[j].1.Schema? ==> SchemaNames(ds[..j + 1]) == SchemaNames(ds[..j]) + [ds[j].0]
    ensures ds[j].1.Schema? ==> SchemasTableKeys(ds[..j + 1]) == SchemasTableKeys(ds[..j]) + Keys(ds[j].1.tables)
    ensures ds[j].1.NotAnObject? ==> SchemaNames(ds[..j + 1]) == SchemaNames(ds[..j])
    ensures ds[j].1.NotAnObject? ==> SchemasTableKeys(ds[..j + 1]) == SchemasTableKeys(ds[..j])
  {
    assert ds[..j + 1][..j] == ds[..j];
  }

  lemma ProjectKeysStep(all: Dict<string, Project>, i: nat)
    requires i < |all|
    ensures all[i].1.Project? ==> BqDatasetNames(all[..i + 1]) == BqDatasetNames(all[..i]) + SchemaNames(all[i].1.datasets)
    ensures all[i].1.Project? ==> BqTableKeys(all[..i + 1]) == BqTableKeys(all[..i]) + SchemasTableKeys(all[i].1.datasets)
    ensures all[i].1.NotAProject? ==> BqDatasetNames(all[..i + 1]) == BqDatasetNames(all[..i])
    ensures all[i].1.NotAProject? ==> BqTableKeys(all[..i + 1]) == BqTableKeys(all[..i])
  {
    assert all[..i + 1][..i] == all[..i];
  }

  /** The BigQuery lookup maps of one project's datasets. */
  /** One dataset's contribution to the BigQuery lookup maps. */
  method AddDataset(dm: Dict<string, string>, tm: Dict<string, string>, ghost dn: seq<string>, ghost tk: seq<string>,
                    ds: Dict<string, Content>, j: nat)
    returns (dm': Dict<string, string>, tm': Dict<string, string>)
    requires j < |ds|
    requires dm == IndexBy(dn + SchemaNames(ds[..j]), Lower) && tm == IndexBy(tk + SchemasTableKeys(ds[..j]), Lower)
    ensures dm' == IndexBy(dn + SchemaNames(ds[..j + 1]), Lower) && tm' == IndexBy(tk + SchemasTableKeys(ds[..j + 1]), Lower)
  {
    SchemaKeysStep(ds, j);
    dm', tm' := dm, tm;
    var c := ds[j].1;
    if c.Schema? {
      var name := ds[j].0;
      IndexBySnoc(dn + SchemaNames(ds[..j]), name, Lower);
      ConcatAssoc(dn, SchemaNames(ds[..j]), [name]);
      dm' := Put(dm, Lower(name), name);
      tm' := AddKeys(tm, tk + SchemasTableKeys(ds[..j]), Keys(c.tables), Lower);
      ConcatAssoc(tk, SchemasTableKeys(ds[..j]), Keys(c.tables));
    }
  }

  method DatasetMaps(dm: Dict<string, string>, tm: Dict<string, string>, ghost dn: seq<string>, ghost tk: seq<string>,
                     ds: Dict<string, Content>)
    returns (dm': Dict<string, string>, tm': Dict<string, string>)
    requires dm == IndexBy(dn, Lower) && tm == IndexBy(tk, Lower)
    ensures dm' == IndexBy(dn + SchemaNames(ds), Lower) && tm' == IndexBy(tk + SchemasTableKeys(ds), Lower)
  {
    dm', tm' := dm, tm;
    assert ds[..0] == [];
    assert dn + [] == dn && tk + [] == tk;
    var j := 0;
    while j < |ds|
      invariant 0 <= j <= |ds|
      invariant dm' == IndexBy(dn + SchemaNames(ds[..j]), Lower) && tm' == IndexBy(tk + SchemasTableKeys(ds[..j]), Lower)
    {
      dm', tm' := AddDataset(dm', tm', dn, tk, ds, j);
      j := j + 1;
    }
    TakeAll(ds);
  }

  /** The BigQuery lookup maps over every project. */
  method BqMaps(all: Dict<string, Project>) returns (datasetMap: Dict<string, string>, tableMap: Dict<string, string>)
    ensures datasetMap == IndexBy(BqDatasetNames(all), Lower) && tableMap == IndexBy(BqTableKeys(all), Lower)
  {
    datasetMap, tableMap := [], [];
    var i := 0;
    while i < |all|
      invariant 0 <= i <= |all|
      invariant datasetMap == IndexBy(BqDatasetNames(all[..i]), Lower)
      invariant tableMap == IndexBy(BqTableKeys(all[..i]), Lower)
    {
      ProjectKeysStep(all, i);
      var p := all[i].1;
      if p.Project? {
        datasetMap, tableMap := DatasetMaps(datasetMap, tableMap, BqDatasetNames(all[..i]), BqTableKeys(all[..i]), p.datasets);
      }
      i := i + 1;
    }
    TakeAll(all);
  }

  /** Branch A for one schema's tables. */
  method RenderTables(prefix: string, tables: Dict<string, seq<ColumnEntry>>, summary: Dict<string, string>)
    returns (r: Result<seq<string>, RenderError>)
    ensures r == TablesBlocks(prefix, tables, summary)
  {
    var lines: seq<string> := [];
    var i := 0;
    while i < |tables|
      invariant 0 <= i <= |tables|
      invariant TablesBlocks(prefix, tables[..i], summary) == Success(lines)
    {
      assert tables[..i + 1][..i] == tables[..i];
      var block := FormatTableDetails(prefix + "." + tables[i].0, tables[i].1, DescOf(summary, tables[i].0));
      if block.None? {
        TablesBlocksPrefixFailure(prefix, tables, summary, i + 1, BadColumnEntry);
        return Failure(BadColumnEntry);
      }
      lines := lines + block.value;
      i := i + 1;
    }
    assert tables[..|tables|] == tables;
    return Success(lines);
  }

  /** Branch A over the schemas that are objects. */
  method RenderSchemas(prefix: string, ds: Dict<string, Content>) returns (r: Result<seq<string>, RenderError>)
    ensures r == SchemasBlocks(prefix, ds)
  {
    var lines: seq<string> := [];
    var i := 0;
    while i < |ds|
      invariant 0 <= i <= |ds|
      invariant SchemasBlocks(prefix, ds[..i]) == Success(lines)
    {
      assert ds[..i + 1][..i] == ds[..i];
      var c := ds[i].1;
      if c.Schema? {
        var more := RenderTables(prefix, c.tables, c.summary);
        if more.Failure? {
          SchemasBlocksPrefixFailure(prefix, ds, i + 1, more.error);
          return Failure(more.error);
        }
        lines := lines + more.value;
      }
      i := i + 1;
    }
    assert ds[..|ds|] == ds;
    return Success(lines);
  }

  /** Branch A over the BigQuery projects. */
  method RenderProjects(all: Dict<string, Project>) returns (r: Result<seq<string>, RenderError>)
    ensures r == ProjectsBlocks(all)
  {
    var lines: seq<string> := [];
    var i := 0;
    while i < |all|
      invariant 0 <= i <= |all|
      invariant ProjectsBlocks(all[..i]) == Success(lines)
    {
      assert all[..i + 1][..i] == all[..i];
      var p := all[i];
      if p.1.Project? {
        var more := RenderSchemas(p.0, p.1.datasets);
        if more.Failure? {
          ProjectsBlocksPrefixFailure(all, i + 1, more.error);
          return Failure(more.error);
        }
        lines := lines + more.value;
      }
      i := i + 1;
    }
    assert all[..|all|] == all;
    return Success(lines);
  }

  /** The lines of `M_Schema` after the header: every table when no name
      survives the simplification, else the requested tables. */
  method SnowBody(dbId: string, all: Dict<string, Content>, requests: seq<string>)
    returns (body: Result<seq<string>, RenderError>)
    ensures body == if requests == [] then SchemasBlocks(dbId, all) else RenderedLines(SnowResolutions(all, dbId, requests))
  {
    if requests == [] {
      body := RenderSchemas(dbId, all);
    } else {
      var schemaMap, tableMap := SnowMaps(all);
      var rs := seq(|requests|, i requires 0 <= i < |requests| => SnowResolveWith(all, dbId, schemaMap, tableMap, requests[i]));
      assert rs == SnowResolutions(all, dbId, requests);
      body := RenderResolved(rs);
    }
  }

  /** `M_Schema` for Snowflake. */
  method SnowMSchema(dbId: string, file: Loaded<Dict<string, Content>>, sl: seq<string>)
    returns (r: Result<string, RenderError>)
    ensures r == SnowSchemaText(dbId, file, sl)
  {
    var requests := SimplifyListSeries(Plain, sl);
    if file.Missing? {
      return Failure(FileNotFound);
    }
    if file.Malformed? {
      return Failure(LoadFailed);
    }
    var body := SnowBody(dbId, file.data, requests);
    if body.Failure? {
      return Failure(body.error);
    }
    return Success(JoinWith("\n", ["[DB_ID] " + dbId, "[Schema]"] + body.value));
  }

  /** The lines of `M_Schema_bigquery` after the task line: every project
      when no name survives the simplification, else the requested tables. */
  method BqBody(all: Dict<string, Project>, requests: seq<string>) returns (body: Result<seq<string>, RenderError>)
    ensures body == if requests == [] then ProjectsBlocks(all) else RenderedLines(BqResolutions(all, requests))
  {
    if requests == [] {
      body := RenderProjects(all);
    } else {
      var datasetMap, tableMap := BqMaps(all);
      var rs := seq(|requests|, i requires 0 <= i < |requests| => BqResolveWith(all, datasetMap, tableMap, requests[i]));
      assert rs == BqResolutions(all, requests);
      body := RenderResolved(rs);
    }
  }

  /** `M_Schema_bigquery`. */
  method BqMSchema(dbId: string, file: Loaded<Dict<string, Project>>, sl: seq<string>)
    returns (r: Result<string, RenderError>)
    ensures r == BqSchemaText(dbId, file, sl)
  {
    var requests := SimplifyListSeries(Dated, sl);
    if file.Missing? {
      return Failure(FileNotFound);
    }
    if file.Malformed? {
      return Failure(LoadFailed);
    }
    var all := file.data;
    if all == [] {
      return Failure(EmptySchema);
    }
    var body := BqBody(all, requests);
    if body.Failure? {
      return Failure(body.error);
    }
    return Success(JoinWith("\n", ["【TASK_ID】" + dbId] + body.value));
  }
}
