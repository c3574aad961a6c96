/** Schema generation for MySQL and Doris databases
    (utils/preprocessor/Get_table_mes_mysql.py): column types are
    normalised, tables whose names differ only in digits are grouped into
    series, and a series is stored once, under its least name, with the
    other members listed and a description of the group. The database and
    the model are oracles: `Sources` gives each table's column rows, each
    column's example values and the model's answers for each group. */
module TableSeries {
  import opened Basics
  import opened Text
  import opened Dicts
  import opened Sorting
  import Series

  // ----- normalize_mysql_type -----

  /** The MySQL data type (upper case) to the standard type. */
  const TypeMapping: Dict<string, string> := [
    ("TINYINT", "NUMBER"), ("SMALLINT", "NUMBER"), ("MEDIUMINT", "NUMBER"),
    ("INT", "NUMBER"), ("INTEGER", "NUMBER"), ("BIGINT", "NUMBER"),
    ("FLOAT", "FLOAT"), ("DOUBLE", "FLOAT"), ("DECIMAL", "FLOAT"), ("NUMERIC", "FLOAT"),
    ("CHAR", "TEXT"), ("VARCHAR", "TEXT"), ("TEXT", "TEXT"), ("TINYTEXT", "TEXT"),
    ("MEDIUMTEXT", "TEXT"), ("LONGTEXT", "TEXT"),
    ("DATE", "DATE"), ("TIME", "TIME"), ("DATETIME", "DATE"), ("TIMESTAMP", "DATE"),
    ("YEAR", "NUMBER"),
    ("BINARY", "TEXT"), ("VARBINARY", "TEXT"), ("BLOB", "TEXT"), ("TINYBLOB", "TEXT"),
    ("MEDIUMBLOB", "TEXT"), ("LONGBLOB", "TEXT"), ("JSON", "TEXT"), ("ENUM", "TEXT"), ("SET", "TEXT")
  ]

  /** The standard types. */
  const NormalTypes: set<string> := {"NUMBER", "FLOAT", "TEXT", "DATE", "TIME"}

  /** `normalize_mysql_type`: the full column type is not consulted. */
  function NormalizeMysqlType(dataType: string, colType: string): string {
    GetOr(TypeMapping, Upper(dataType), "TEXT")
  }

  lemma MappingValues()
    ensures forall v :: v in Values(TypeMapping) ==> v in NormalTypes
  {
    var vs := Values(TypeMapping);
    assert forall i :: 0 <= i < |vs| ==> vs[i] == TypeMapping[i].1;
  }

  /** The normalised type is a standard type; a type missing from the
      table is TEXT; the data type's case does not matter. */
  lemma NormalizeFacts(dataType: string, colType: string)
    ensures NormalizeMysqlType(dataType, colType) in NormalTypes
    ensures Upper(dataType) !in Keys(TypeMapping) ==> NormalizeMysqlType(dataType, colType) == "TEXT"
    ensures NormalizeMysqlType(Lower(dataType), colType) == NormalizeMysqlType(dataType, colType)
  {
    MappingValues();
    GetOrCases(TypeMapping, Upper(dataType), "TEXT");
    UpperOfLower(dataType);
  }

  /** A mapped type is found whatever its case; a type outside the table
      becomes TEXT. */
  lemma NormalizeExamples()
    ensures NormalizeMysqlType("tinyint", "tinyint(1)") == "NUMBER"
    ensures NormalizeMysqlType("Geometry", "geometry") == "TEXT"
  {
    assert Upper("tinyint") == "TINYINT";
    assert Upper("Geometry") == "GEOMETRY";
    var ks := Keys(TypeMapping);
    assert forall i :: 0 <= i < |ks| ==> ks[i] == TypeMapping[i].0;
    assert "GEOMETRY" !in ks;
  }

  // ----- get_table_schema (the per-row mapping) -----

  /** A row of the column query: COLUMN_NAME, DATA_TYPE, COLUMN_TYPE and
      COLUMN_KEY. */
  datatype ColumnRow = ColumnRow(name: string, dataType: string, columnType: string, columnKey: string)

  /** A column as the series processing sees it. */
  datatype ColumnInfo = ColumnInfo(name: string, colType: string, isPk: bool)

  function ColumnOf(row: ColumnRow): ColumnInfo {
    ColumnInfo(row.name, NormalizeMysqlType(row.dataType, row.columnType), row.columnKey == "PRI")
  }

  // ----- remove_digits, group_tables_by_series -----

  /** A table name tagged with its series (`remove_digits`). */
  function SeriesTag(name: string): (string, string) {
    (RemoveDigits(name), name)
  }

  /** `defaultdict(list)` filled by appending each value under its key. */
  function GroupBy(pairs: seq<(string, string)>): Dict<string, seq<string>> {
    if pairs == [] then []
    else
      var g := GroupBy(pairs[..|pairs| - 1]);
      var p := pairs[|pairs| - 1];
      Put(g, p.0, GetOr(g, p.0, []) + [p.1])
  }

  /** The values filed under `k`, in input order. */
  function ValuesOf(pairs: seq<(string, string)>, k: string): seq<string> {
    if pairs == [] then []
    else ValuesOf(pairs[..|pairs| - 1], k) + (if pairs[|pairs| - 1].0 == k then [pairs[|pairs| - 1].1] else [])
  }

  function GroupTablesBySeries(tableNames: seq<string>): Dict<string, seq<string>> {
    GroupBy(MapSeq(SeriesTag, tableNames))
  }

  lemma {:induction false} ValuesOfMembers(pairs: seq<(string, string)>, k: string, x: string)
    ensures x in ValuesOf(pairs, k) <==> (k, x) in pairs
  {
    if pairs != [] {
      var init := pairs[..|pairs| - 1];
      ValuesOfMembers(init, k, x);
      assert pairs == init + [pairs[|pairs| - 1]];
    }
  }

  /** Appending `x` under `key` keeps what group `k` holds in step with
      the values filed under `k`. */
  lemma AppendAt(g: Dict<string, seq<string>>, key: string, x: string, k: string, filed: seq<string>)
    requires k in Keys(g) <==> filed != []
    requires k in Keys(g) ==> Get(g, k) == Some(filed)
    ensures var r := Put(g, key, GetOr(g, key, []) + [x]);
      var filed' := filed + (if key == k then [x] else []);
      && (k in Keys(r) <==> filed' != [])
      && (k in Keys(r) ==> Get(r, k) == Some(filed'))
  {
    var v := GetOr(g, key, []) + [x];
    var r := Put(g, key, v);
    if key != k {
      assert k in Keys(r) <==> k in Keys(g);
      assert Get(r, k) == Get(g, k);
      assert filed + [] == filed;
    } else {
      assert GetOr(g, key, []) == filed;
      assert Get(r, k) == Some(v);
    }
  }

  /** Key `k` has a group exactly when some value is filed under it, and
      that group holds those values in input order. */
  lemma {:induction false} GroupByAt(pairs: seq<(string, string)>, k: string)
    ensures k in Keys(GroupBy(pairs)) <==> ValuesOf(pairs, k) != []
    ensures k in Keys(GroupBy(pairs)) ==> Get(GroupBy(pairs), k) == Some(ValuesOf(pairs, k))
  {
    if pairs != [] {
      var init := pairs[..|pairs| - 1];
      var p := pairs[|pairs| - 1];
      GroupByAt(init, k);
      AppendAt(GroupBy(init), p.0, p.1, k, ValuesOf(init, k));
    }
  }

  lemma {:induction false} GroupByDistinct(pairs: seq<(string, string)>)
    ensures DistinctKeys(GroupBy(pairs))
  {
    if pairs != [] {
      var init := pairs[..|pairs| - 1];
      var p := pairs[|pairs| - 1];
      var g := GroupBy(init);
      GroupByDistinct(init);
      PutKeepsDistinct(g, p.0, GetOr(g, p.0, []) + [p.1]);
    }
  }

  /** The groups: one per key, each key listed once, holding exactly the
      values filed under it, in input order. */
  lemma GroupByFacts(pairs: seq<(string, string)>)
    ensures DistinctKeys(GroupBy(pairs))
    ensures forall k :: k in Keys(GroupBy(pairs)) <==> ValuesOf(pairs, k) != []
    ensures forall k :: k in Keys(GroupBy(pairs)) ==> Get(GroupBy(pairs), k) == Some(ValuesOf(pairs, k))
  {
    GroupByDistinct(pairs);
    forall k
      ensures k in Keys(GroupBy(pairs)) <==> ValuesOf(pairs, k) != []
      ensures k in Keys(GroupBy(pairs)) ==> Get(GroupBy(pairs), k) == Some(ValuesOf(pairs, k))
    {
      GroupByAt(pairs, k);
    }
  }

  /** `group_tables_by_series` partitions the names: each lands in the
      group of its digit-free name and in no other, every group is
      non-empty and only holds names of its series, and the groups keep
      input order. */
  lemma GroupTablesFacts(tableNames: seq<string>)
    ensures DistinctKeys(GroupTablesBySeries(tableNames))
    ensures forall n :: n in tableNames ==> Get(GroupTablesBySeries(tableNames), RemoveDigits(n)).Some? &&
                                            n in Get(GroupTablesBySeries(tableNames), RemoveDigits(n)).value
    ensures forall i :: 0 <= i < |GroupTablesBySeries(tableNames)| ==> SeriesGroup(GroupTablesBySeries(tableNames)[i], tableNames)
  {
    var pairs := MapSeq(SeriesTag, tableNames);
    var g := GroupBy(pairs);
    GroupByFacts(pairs);
    forall n | n in tableNames
      ensures Get(g, RemoveDigits(n)).Some? && n in Get(g, RemoveDigits(n)).value
    {
      var i :| 0 <= i < |tableNames| && tableNames[i] == n;
      assert pairs[i] == SeriesTag(tableNames[i]);
      ValuesOfMembers(pairs, RemoveDigits(n), n);
    }
    forall i | 0 <= i < |g|
      ensures SeriesGroup(g[i], tableNames)
    {
      Series.GetDistinct(g, i);
      assert g[i].0 in Keys(g);
      forall x | x in g[i].1
        ensures x in tableNames && RemoveDigits(x) == g[i].0
      {
        ValuesOfMembers(pairs, g[i].0, x);
        var j :| 0 <= j < |pairs| && pairs[j] == (g[i].0, x);
      }
    }
  }

  /** A group of the result: non-empty, and its members are names of the
      input in the group's series. */
  ghost predicate SeriesGroup(g: (string, seq<string>), tableNames: seq<string>) {
    && g.1 != []
    && forall x :: x in g.1 ==> x in tableNames && RemoveDigits(x) == g.0
  }

  /** The loop of `group_tables_by_series`. */
  method GroupTables(tableNames: seq<string>) returns (groups: Dict<string, seq<string>>)
    ensures groups == GroupTablesBySeries(tableNames)
  {
    ghost var pairs := MapSeq(SeriesTag, tableNames);
    groups := [];
    for i := 0 to |tableNames|
      invariant groups == GroupBy(pairs[..i])
    {
      assert pairs[..i + 1][..i] == pairs[..i];
      assert pairs[..i + 1][i] == SeriesTag(tableNames[i]);
      var baseName := RemoveDigits(tableNames[i]);
      groups := Put(groups, baseName, GetOr(groups, baseName, []) + [tableNames[i]]);
    }
    assert pairs[..|tableNames|] == pairs;
  }

  // ----- the sources -----

  /** The database and the model as `process_table_series` sees them: the
      column rows of a table, the example values of a column (at most the
      limit asked for, after the query's own truncation) and the model's
      answers for the group a table represents, `None` when a call raised or
      gave no `Answer`. */
  datatype Sources = Sources(
    rows: string -> seq<ColumnRow>,
    examples: (string, string, nat) -> seq<string>,
    answers: string -> seq<Option<string>>)

  /** `get_table_schema`. */
  function TableSchema(src: Sources, table: string): seq<ColumnInfo> {
    MapSeq(ColumnOf, src.rows(table))
  }

  const ExampleLimit: nat := 3

  /** `xs[:n]` */
  function Take<T>(xs: seq<T>, n: nat): (r: seq<T>)
    ensures |r| <= n && r <= xs
  {
    if |xs| <= n then xs else xs[..n]
  }

  /** `get_column_examples`: `examples[:limit]`. */
  function Examples(src: Sources, table: string, column: string, limit: nat): seq<string> {
    Take(src.examples(table, column, limit), limit)
  }

  // ----- column entries -----

  /** `[name, "Primary Key" or None, type, None, examples]` */
  datatype ColumnEntry = ColumnEntry(name: string, key: Option<string>, colType: string, description: Option<string>, examples: string)

  function Entry(c: ColumnInfo, examples: seq<string>): ColumnEntry {
    ColumnEntry(c.name, if c.isPk then Some("Primary Key") else None, c.colType, None, JoinWith(", ", examples))
  }

  /** What every stored column entry satisfies: the key field is
      "Primary Key" exactly for primary keys, the type is a standard type
      and the description is empty. */
  predicate EntryOf(c: ColumnInfo, e: ColumnEntry) {
    && e.name == c.name
    && e.key == (if c.isPk then Some("Primary Key") else None)
    && e.description.None?
    && e.colType == c.colType
  }

  /** The columns of a table on its own, each with its examples. */
  function SingleEntries(src: Sources, table: string): seq<ColumnEntry> {
    var cols := TableSchema(src, table);
    seq(|cols|, i requires 0 <= i < |cols| => Entry(cols[i], Examples(src, table, cols[i].name, ExampleLimit)))
  }

  /** The example loop of a series column: one example from each of the
      tables in turn, stopping once the limit is reached. */
  function Gather(src: Sources, tables: seq<string>, column: string, acc: seq<string>): seq<string>
    decreases |tables|
  {
    if tables == [] then acc
    else
      var acc' := acc + Examples(src, tables[0], column, 1);
      if |acc'| >= ExampleLimit then acc' else Gather(src, tables[1..], column, acc')
  }

  /** The examples of a series column, taken from its first three tables. */
  function SeriesExamples(src: Sources, sorted: seq<string>, column: string): seq<string> {
    Take(Gather(src, Take(sorted, 3), column, []), ExampleLimit)
  }

  /** The representative's columns, each with examples from the series. */
  function SeriesEntries(src: Sources, sorted: seq<string>, rep: string): seq<ColumnEntry> {
    var cols := TableSchema(src, rep);
    seq(|cols|, i requires 0 <= i < |cols| => Entry(cols[i], SeriesExamples(src, sorted, cols[i].name)))
  }

  /** Each gathered example comes from one of the tables. */
  lemma {:induction false} GatherFrom(src: Sources, tables: seq<string>, column: string, acc: seq<string>, x: string)
    requires x in Gather(src, tables, column, acc)
    ensures x in acc || exists t :: t in tables && x in Examples(src, t, column, 1)
    decreases |tables|
  {
    if tables != [] {
      var acc' := acc + Examples(src, tables[0], column, 1);
      if |acc'| < ExampleLimit {
        GatherFrom(src, tables[1..], column, acc', x);
        if exists t :: t in tables[1..] && x in Examples(src, t, column, 1) {
          var t :| t in tables[1..] && x in Examples(src, t, column, 1);
          assert t in tables;
        }
      }
    }
  }

  /** A series column shows at most three examples, each taken from one of
      the series' first three tables. */
  lemma SeriesExamplesFacts(src: Sources, sorted: seq<string>, column: string)
    ensures |SeriesExamples(src, sorted, column)| <= ExampleLimit
    ensures forall x :: x in SeriesExamples(src, sorted, column) ==>
      exists t :: t in sorted[..if |sorted| < 3 then |sorted| else 3] && x in Examples(src, t, column, 1)
  {
    var first := Take(sorted, 3);
    assert first == sorted[..if |sorted| < 3 then |sorted| else 3];
    forall x | x in SeriesExamples(src, sorted, column)
      ensures exists t :: t in first && x in Examples(src, t, column, 1)
    {
      GatherFrom(src, first, column, [], x);
    }
  }

  /** Every column entry has the form `[name, key, type, None, examples]`
      for its column, and its type is a standard type. */
  lemma EntriesFacts(src: Sources, sorted: seq<string>, table: string)
    ensures |SingleEntries(src, table)| == |TableSchema(src, table)|
    ensures |SeriesEntries(src, sorted, table)| == |TableSchema(src, table)|
    ensures forall i :: 0 <= i < |TableSchema(src, table)| ==>
      && EntryOf(TableSchema(src, table)[i], SingleEntries(src, table)[i])
      && EntryOf(TableSchema(src, table)[i], SeriesEntries(src, sorted, table)[i])
      && TableSchema(src, table)[i].colType in NormalTypes
  {
    var cols := TableSchema(src, table);
    var single := SingleEntries(src, table);
    var series := SeriesEntries(src, sorted, table);
    forall i | 0 <= i < |cols|
      ensures EntryOf(cols[i], single[i]) && EntryOf(cols[i], series[i]) && cols[i].colType in NormalTypes
    {
      var row := src.rows(table)[i];
      assert cols[i] == ColumnOf(row);
      assert single[i] == Entry(cols[i], Examples(src, table, cols[i].name, ExampleLimit));
      assert series[i] == Entry(cols[i], SeriesExamples(src, sorted, cols[i].name));
      NormalizeFacts(row.dataType, row.columnType);
    }
  }

  // ----- extra columns -----

  /** `{col['name'].lower() for col in schema}` */
  function LowerNames(cols: seq<ColumnInfo>): set<string> {
    set c | c in cols :: Lower(c.name)
  }

  /** `next(iter(current_cols_set - rep_cols_set))` when that set is not
      empty: the lower-case name of a column the representative lacks. */
  function ExtraColumn(repNames: set<string>, cols: seq<ColumnInfo>): Option<string> {
    if cols == [] then None
    else if Lower(cols[0].name) !in repNames then Some(Lower(cols[0].name))
    else ExtraColumn(repNames, cols[1..])
  }

  /** A table has an extra column exactly when some column name, in lower
      case, is missing from the representative, and the one reported is
      such a name. */
  lemma {:induction false} ExtraColumnFacts(repNames: set<string>, cols: seq<ColumnInfo>)
    ensures ExtraColumn(repNames, cols).Some? <==> LowerNames(cols) - repNames != {}
    ensures ExtraColumn(repNames, cols).Some? ==> ExtraColumn(repNames, cols).value in LowerNames(cols) - repNames
  {
    if cols != [] {
      ExtraColumnFacts(repNames, cols[1..]);
      assert forall c :: c in cols <==> c == cols[0] || c in cols[1..];
      assert LowerNames(cols) == {Lower(cols[0].name)} + LowerNames(cols[1..]);
      if Lower(cols[0].name) in repNames {
        assert LowerNames(cols) - repNames == LowerNames(cols[1..]) - repNames;
      } else {
        assert Lower(cols[0].name) in LowerNames(cols) - repNames;
      }
    }
  }

  /** `extra_cols_info`: each other member of the series, in order, with
      its extra column when it has one. */
  function ExtraInfo(src: Sources, repNames: set<string>, others: seq<string>): Dict<string, string> {
    if others == [] then []
    else
      var acc := ExtraInfo(src, repNames, others[..|others| - 1]);
      var t := others[|others| - 1];
      match ExtraColumn(repNames, TableSchema(src, t))
      case Some(c) => Put(acc, t, c)
      case None => acc
  }

  /** Each table appears at most once, with one extra column: a lower-case
      column name of that table the representative lacks; a member appears
      exactly when it has such a column. */
  lemma {:induction false} ExtraInfoFacts(src: Sources, repNames: set<string>, others: seq<string>)
    ensures DistinctKeys(ExtraInfo(src, repNames, others))
    ensures forall t :: t in Keys(ExtraInfo(src, repNames, others)) <==>
      t in others && LowerNames(TableSchema(src, t)) - repNames != {}
    ensures forall t :: t in Keys(ExtraInfo(src, repNames, others)) ==>
      Get(ExtraInfo(src, repNames, others), t).value in LowerNames(TableSchema(src, t)) - repNames
  {
    if others != [] {
      var init := others[..|others| - 1];
      var t := others[|others| - 1];
      var acc := ExtraInfo(src, repNames, init);
      ExtraInfoFacts(src, repNames, init);
      ExtraColumnFacts(repNames, TableSchema(src, t));
      assert others == init + [t];
      match ExtraColumn(repNames, TableSchema(src, t))
      case Some(c) =>
        PutKeepsDistinct(acc, t, c);
      case None =>
    }
  }

  // ----- _generate_table_group_description -----

  function Quoted(t: string): string {
    "'" + t + "'"
  }

  /** `[t for t in xs if t != x]` */
  function Without(xs: seq<string>, x: string): seq<string> {
    if xs == [] then []
    else (if xs[0] != x then [xs[0]] else []) + Without(xs[1..], x)
  }

  lemma {:induction false} WithoutMembers(xs: seq<string>, x: string, y: string)
    ensures y in Without(xs, x) <==> y in xs && y != x
  {
    if xs != [] {
      WithoutMembers(xs[1..], x, y);
      assert xs == [xs[0]] + xs[1..];
    }
  }

  /** The description used for small groups and as the fallback. */
  function Template(similar: seq<string>, rep: string): string {
    "Tables " + JoinWith(", ", MapSeq(Quoted, similar)) + " and the current table " + Quoted(rep) +
    " share a similar column pattern."
  }

  function Swap(p: (string, string)): (string, string) {
    (p.1, p.0)
  }

  /** `cols_to_tables`: the tables grouped by their extra column. */
  function ColsToTables(extra: Dict<string, string>): Dict<string, seq<string>> {
    GroupBy(MapSeq(Swap, extra))
  }

  lemma GroupByNonEmpty(pairs: seq<(string, string)>)
    ensures forall i :: 0 <= i < |GroupBy(pairs)| ==> GroupBy(pairs)[i].1 != []
  {
    var g := GroupBy(pairs);
    GroupByFacts(pairs);
    forall i | 0 <= i < |g|
      ensures g[i].1 != []
    {
      Series.GetDistinct(g, i);
      assert g[i].0 in Keys(g);
    }
  }

  /** The note on one extra column. */
  function Note(column: string, tables: seq<string>): string
    requires tables != []
  {
    if |tables| == 1 then "table " + Quoted(tables[0]) + " has an extra column " + Quoted(column)
    else
      "tables " + JoinWith(", ", MapSeq(Quoted, tables[..|tables| - 1])) + " and " + Quoted(tables[|tables| - 1]) +
      " have a common extra column " + Quoted(column)
  }

  function Notes(groups: Dict<string, seq<string>>): (r: seq<string>)
    requires forall i :: 0 <= i < |groups| ==> groups[i].1 != []
    ensures |r| == |groups|
  {
    seq(|groups|, i requires 0 <= i < |groups| => Note(groups[i].0, groups[i].1))
  }

  /** The small-group description: the template, then one note per extra
      column when any member has one. */
  function SmallDescription(similar: seq<string>, rep: string, extra: Dict<string, string>): string {
    var groups := ColsToTables(extra);
    GroupByNonEmpty(MapSeq(Swap, extra));
    var notes := Notes(groups);
    Template(similar, rep) + (if notes == [] then "" else " Additionally: " + JoinWith("; ", notes) + ".")
  }

  const MaxRetries: nat := 5

  /** A description and the number of model calls made for it. */
  datatype Described = Described(text: string, calls: nat)

  function Answer(answers: seq<Option<string>>, k: nat): Option<string> {
    if k < |answers| then answers[k] else None
  }

  /** The retry loop for large groups: the first answer wins; after the
      last failed attempt, the fallback. */
  function LlmDescription(answers: seq<Option<string>>, attempt: nat, fallback: string): Described
    decreases MaxRetries - attempt
  {
    if attempt >= MaxRetries then Described(fallback, attempt)
    else
      match Answer(answers, attempt)
      case Some(a) => Described(a, attempt + 1)
      case None => LlmDescription(answers, attempt + 1, fallback)
  }

  /** `_generate_table_group_description` */
  function GroupDescription(tableList: seq<string>, rep: string, extra: Dict<string, string>, answers: seq<Option<string>>): Described {
    var similar := Without(tableList, rep);
    if |tableList| <= 5 then Described(SmallDescription(similar, rep, extra), 0)
    else LlmDescription(answers, 0, Template(similar, rep))
  }

  lemma {:induction false} LlmDescriptionFacts(answers: seq<Option<string>>, attempt: nat, fallback: string)
    requires attempt <= MaxRetries
    ensures var d := LlmDescription(answers, attempt, fallback);
      && attempt <= d.calls <= MaxRetries
      && ((attempt < d.calls && Answer(answers, d.calls - 1) == Some(d.text)) ||
          (d == Described(fallback, MaxRetries) && forall k :: attempt <= k < MaxRetries ==> Answer(answers, k).None?))
      && (forall k :: attempt <= k < d.calls - 1 ==> Answer(answers, k).None?)
      && ((forall k :: attempt <= k < MaxRetries ==> Answer(answers, k).None?) ==> d == Described(fallback, MaxRetries))
    decreases MaxRetries - attempt
  {
    if attempt < MaxRetries && Answer(answers, attempt).None? {
      LlmDescriptionFacts(answers, attempt + 1, fallback);
    }
  }

  /** Grouping yields no group exactly when there is nothing to group. */
  lemma GroupByEmpty(pairs: seq<(string, string)>)
    ensures GroupBy(pairs) == [] <==> pairs == []
  {
    if pairs != [] {
      assert Get(GroupBy(pairs), pairs[|pairs| - 1].0).Some?;
    }
  }

  /** The small-group text is the bare template exactly when no member has
      an extra column; otherwise notes follow it. */
  lemma SmallDescriptionNotes(similar: seq<string>, rep: string, extra: Dict<string, string>)
    ensures var t := Template(similar, rep);
      var s := SmallDescription(similar, rep, extra);
      && |t| <= |s| && s[..|t|] == t
      && (s == t <==> extra == [])
  {
    GroupByEmpty(MapSeq(Swap, extra));
    assert |MapSeq(Swap, extra)| == |extra|;
  }

  /** Groups of at most five tables get the template, followed by notes
      exactly when some member has an extra column, without calling the
      model; larger groups call it at most five times, taking the first
      answer, every earlier call having failed, or, after five failures,
      falling back to the template. */
  lemma GroupDescriptionFacts(tableList: seq<string>, rep: string, extra: Dict<string, string>, answers: seq<Option<string>>)
    ensures var d := GroupDescription(tableList, rep, extra, answers);
      var t := Template(Without(tableList, rep), rep);
      && d.calls <= MaxRetries
      && (|tableList| <= 5 ==> d.calls == 0 && |t| <= |d.text| && d.text[..|t|] == t && (d.text == t <==> extra == []))
      && (|tableList| > 5 ==>
            && 1 <= d.calls
            && (|| Answer(answers, d.calls - 1) == Some(d.text)
                || (d == Described(t, MaxRetries) && forall k :: 0 <= k < MaxRetries ==> Answer(answers, k).None?)))
      && (|tableList| > 5 ==> forall k :: 0 <= k < d.calls - 1 ==> Answer(answers, k).None?)
  {
    if |tableList| > 5 {
      LlmDescriptionFacts(answers, 0, Template(Without(tableList, rep), rep));
    } else {
      SmallDescriptionNotes(Without(tableList, rep), rep, extra);
    }
  }

  // ----- process_table_series -----

  /** The result of `process_table_series`: the stored columns of each
      table or representative, the other members of each series and the
      description of each series. */
  datatype SeriesOutput = SeriesOutput(
    dbContent: Dict<string, seq<ColumnEntry>>,
    tableInfo: Dict<string, seq<string>>,
    summary: Dict<string, string>)

  /** The table a group is stored under: its only table, or the first of
      the sorted group. */
  function Representative(group: seq<string>): string
    requires group != []
  {
    if |group| == 1 then group[0]
    else
      SortFacts(group);
      Sort(group)[0]
  }

  /** What is stored for one group: its columns, and for a series the
      other members and the description. */
  datatype Stored = Stored(entries: seq<ColumnEntry>, members: Option<seq<string>>, description: Option<string>)

  /** A single table keeps its own columns; a series is sorted, and its
      first table carries the series' columns, the other members and a
      description. */
  function GroupRecord(src: Sources, group: seq<string>): Stored
    requires group != []
  {
    if |group| == 1 then Stored(SingleEntries(src, group[0]), None, None)
    else
      SortFacts(group);
      var sorted := Sort(group);
      var rep := sorted[0];
      var extra := ExtraInfo(src, LowerNames(TableSchema(src, rep)), sorted[1..]);
      Stored(SeriesEntries(src, sorted, rep), Some(Without(sorted, rep)),
             Some(GroupDescription(sorted, rep, extra, src.answers(rep)).text))
  }

  /** One group of the loop: its record is stored under its representative. */
  function AddGroup(src: Sources, out: SeriesOutput, group: seq<string>): SeriesOutput
    requires group != []
  {
    var record := GroupRecord(src, group);
    if record.members.None? || record.description.None? then
      StoreSingle(out, Representative(group), record.entries)
    else
      StoreSeries(out, Representative(group), record.entries, record.members.value, record.description.value)
  }

  function StoreSingle(out: SeriesOutput, t: string, entries: seq<ColumnEntry>): SeriesOutput {
    out.(dbContent := Put(out.dbContent, t, entries))
  }

  function StoreSeries(out: SeriesOutput, rep: string, entries: seq<ColumnEntry>, members: seq<string>,
                       description: string): SeriesOutput {
    SeriesOutput(Put(out.dbContent, rep, entries), Put(out.tableInfo, rep, members), Put(out.summary, rep, description))
  }

  predicate NonEmptyGroups(groups: Dict<string, seq<string>>) {
    forall i :: 0 <= i < |groups| ==> groups[i].1 != []
  }

  /** The loop over the groups, in their order. */
  function Process(src: Sources, groups: Dict<string, seq<string>>): SeriesOutput
    requires NonEmptyGroups(groups)
  {
    if groups == [] then SeriesOutput([], [], [])
    else AddGroup(src, Process(src, groups[..|groups| - 1]), groups[|groups| - 1].1)
  }

  /** `process_table_series` */
  function ProcessTableSeries(src: Sources, tableNames: seq<string>): SeriesOutput {
    GroupTablesFacts(tableNames);
    Process(src, GroupTablesBySeries(tableNames))
  }

  /** The representative is a member of the group and precedes every
      other member. */
  lemma RepresentativeFacts(group: seq<string>)
    requires group != []
    ensures Representative(group) in group
    ensures forall x :: x in group ==> LessEq(Representative(group), x)
  {
    if |group| == 1 {
      LessEqRefl(group[0]);
    } else {
      var sorted := Sort(group);
      SortFacts(group);
      assert sorted[0] in multiset(group);
      forall x | x in group
        ensures LessEq(sorted[0], x)
      {
        assert x in multiset(sorted);
        var j :| 0 <= j < |sorted| && sorted[j] == x;
        if j == 0 {
          LessEqRefl(x);
        }
      }
    }
  }

  /** Groups keyed by series, each non-empty and holding only tables of
      its series. */
  ghost predicate SeriesGroups(groups: Dict<string, seq<string>>) {
    && DistinctKeys(groups)
    && NonEmptyGroups(groups)
    && forall i, x :: 0 <= i < |groups| && x in groups[i].1 ==> RemoveDigits(x) == groups[i].0
  }

  /** Representatives of distinct series are distinct. */
  lemma RepresentativesDiffer(groups: Dict<string, seq<string>>, i: nat, j: nat)
    requires SeriesGroups(groups) && i < j < |groups|
    ensures Representative(groups[i].1) != Representative(groups[j].1)
  {
    RepresentativeFacts(groups[i].1);
    RepresentativeFacts(groups[j].1);
    assert RemoveDigits(Representative(groups[i].1)) == groups[i].0;
    assert RemoveDigits(Representative(groups[j].1)) == groups[j].0;
  }

  /** The keys of the output after the groups processed so far: each
      listed once, the stored tables are representatives, and the series
      with members listed are those with descriptions. */
  ghost predicate KeysHold(groups: Dict<string, seq<string>>, out: SeriesOutput) {
    && DistinctKeys(out.dbContent) && DistinctKeys(out.tableInfo) && DistinctKeys(out.summary)
    && (forall t :: t in Keys(out.dbContent) ==>
                      exists i :: 0 <= i < |groups| && groups[i].1 != [] && Representative(groups[i].1) == t)
    && (forall t :: t in Keys(out.tableInfo) <==> t in Keys(out.summary))
    && (forall t :: t in Keys(out.tableInfo) ==> t in Keys(out.dbContent))
  }

  /** Every group processed so far is stored. */
  ghost predicate AllStored(src: Sources, groups: Dict<string, seq<string>>, out: SeriesOutput) {
    forall i :: 0 <= i < |groups| ==> GroupStored(src, groups[i].1, out)
  }

  ghost predicate Holds(src: Sources, groups: Dict<string, seq<string>>, out: SeriesOutput) {
    KeysHold(groups, out) && AllStored(src, groups, out)
  }

  /** `out` holds `e` under `rep`. */
  ghost predicate StoredAt(out: SeriesOutput, rep: string, e: Stored) {
    && Get(out.dbContent, rep) == Some(e.entries)
    && Get(out.tableInfo, rep) == e.members
    && Get(out.summary, rep) == e.description
  }

  /** How one group is stored: its record under its representative. */
  ghost predicate GroupStored(src: Sources, group: seq<string>, out: SeriesOutput) {
    group != [] && StoredAt(out, Representative(group), GroupRecord(src, group))
  }

  /** Storing a group of a new series leaves the earlier groups as they
      were. */
  lemma KeepsStored(out: SeriesOutput, r: string, e: Stored, rep: string, out': SeriesOutput)
    requires StoredAt(out, r, e) && r != rep
    requires Extends(out, rep, out')
    ensures StoredAt(out', r, e)
  {
  }

  /** The representative of the next group is not stored yet. */
  lemma RepresentativeFresh(groups: Dict<string, seq<string>>, out: SeriesOutput)
    requires SeriesGroups(groups) && groups != []
    requires KeysHold(groups[..|groups| - 1], out)
    ensures Representative(groups[|groups| - 1].1) !in Keys(out.dbContent)
    ensures Representative(groups[|groups| - 1].1) !in Keys(out.tableInfo)
    ensures Representative(groups[|groups| - 1].1) !in Keys(out.summary)
  {
    var n := |groups| - 1;
    var init := groups[..n];
    var rep := Representative(groups[n].1);
    if rep in Keys(out.dbContent) {
      var i :| 0 <= i < |init| && init[i].1 != [] && Representative(init[i].1) == rep;
      assert groups[i] == init[i];
      RepresentativesDiffer(groups, i, n);
    }
  }

  /** `out'` is `out` with `rep` stored: added to the columns, and either
      to both the members and the descriptions or to neither, nothing else
      changed. */
  ghost predicate Extends(out: SeriesOutput, rep: string, out': SeriesOutput) {
    && DistinctKeys(out'.dbContent) && DistinctKeys(out'.tableInfo) && DistinctKeys(out'.summary)
    && Keys(out'.dbContent) == Keys(out.dbContent) + [rep]
    && ((Keys(out'.tableInfo) == Keys(out.tableInfo) + [rep] && Keys(out'.summary) == Keys(out.summary) + [rep]) ||
        (Keys(out'.tableInfo) == Keys(out.tableInfo) && Keys(out'.summary) == Keys(out.summary)))
    && (forall t :: t != rep ==> Get(out'.dbContent, t) == Get(out.dbContent, t))
    && (forall t :: t != rep ==> Get(out'.tableInfo, t) == Get(out.tableInfo, t))
    && (forall t :: t != rep ==> Get(out'.summary, t) == Get(out.summary, t))
  }

  lemma StoreSingleExtends(out: SeriesOutput, t: string, entries: seq<ColumnEntry>)
    requires DistinctKeys(out.dbContent) && DistinctKeys(out.tableInfo) && DistinctKeys(out.summary)
    requires t !in Keys(out.dbContent) && t !in Keys(out.tableInfo) && t !in Keys(out.summary)
    ensures Extends(out, t, StoreSingle(out, t, entries))
    ensures StoredAt(StoreSingle(out, t, entries), t, Stored(entries, None, None))
  {
    PutKeepsDistinct(out.dbContent, t, entries);
  }

  lemma StoreSeriesExtends(out: SeriesOutput, rep: string, entries: seq<ColumnEntry>, members: seq<string>,
                           description: string)
    requires DistinctKeys(out.dbContent) && DistinctKeys(out.tableInfo) && DistinctKeys(out.summary)
    requires rep !in Keys(out.dbContent) && rep !in Keys(out.tableInfo) && rep !in Keys(out.summary)
    ensures Extends(out, rep, StoreSeries(out, rep, entries, members, description))
    ensures StoredAt(StoreSeries(out, rep, entries, members, description), rep,
                     Stored(entries, Some(members), Some(description)))
  {
    PutKeepsDistinct(out.dbContent, rep, entries);
    PutKeepsDistinct(out.tableInfo, rep, members);
    PutKeepsDistinct(out.summary, rep, description);
  }

  lemma AddGroupFacts(src: Sources, out: SeriesOutput, group: seq<string>)
    requires group != []
    requires DistinctKeys(out.dbContent) && DistinctKeys(out.tableInfo) && DistinctKeys(out.summary)
    requires Representative(group) !in Keys(out.dbContent)
    requires Representative(group) !in Keys(out.tableInfo) && Representative(group) !in Keys(out.summary)
    ensures Extends(out, Representative(group), AddGroup(src, out, group))
    ensures GroupStored(src, group, AddGroup(src, out, group))
  {
    var record := GroupRecord(src, group);
    if record.members.None? || record.description.None? {
      StoreSingleExtends(out, Representative(group), record.entries);
    } else {
      StoreSeriesExtends(out, Representative(group), record.entries, record.members.value, record.description.value);
    }
  }

  lemma KeysStep(groups: Dict<string, seq<string>>, out: SeriesOutput, out': SeriesOutput)
    requires SeriesGroups(groups) && groups != []
    requires KeysHold(groups[..|groups| - 1], out)
    requires Representative(groups[|groups| - 1].1) !in Keys(out.dbContent)
    requires Extends(out, Representative(groups[|groups| - 1].1), out')
    ensures KeysHold(groups, out')
  {
    var n := |groups| - 1;
    var init := groups[..n];
    var rep := Representative(groups[n].1);
    forall t | t in Keys(out'.dbContent)
      ensures exists i :: 0 <= i < |groups| && groups[i].1 != [] && Representative(groups[i].1) == t
    {
      if t != rep {
        assert t in Keys(out.dbContent);
        var i :| 0 <= i < |init| && init[i].1 != [] && Representative(init[i].1) == t;
        assert groups[i] == init[i];
      }
    }
  }

  lemma StoredStep(src: Sources, groups: Dict<string, seq<string>>, out: SeriesOutput, out': SeriesOutput)
    requires SeriesGroups(groups) && groups != []
    requires AllStored(src, groups[..|groups| - 1], out)
    requires Extends(out, Representative(groups[|groups| - 1].1), out')
    requires GroupStored(src, groups[|groups| - 1].1, out')
    ensures AllStored(src, groups, out')
  {
    forall i | 0 <= i < |groups| - 1
      ensures GroupStored(src, groups[i].1, out')
    {
      StoredKept(src, groups, out, out', i);
    }
  }

  lemma StoredKept(src: Sources, groups: Dict<string, seq<string>>, out: SeriesOutput, out': SeriesOutput, i: nat)
    requires SeriesGroups(groups) && i < |groups| - 1
    requires AllStored(src, groups[..|groups| - 1], out)
    requires Extends(out, Representative(groups[|groups| - 1].1), out')
    ensures GroupStored(src, groups[i].1, out')
  {
    var n := |groups| - 1;
    var g := groups[i].1;
    assert g == groups[..n][i].1;
    assert GroupStored(src, g, out);
    RepresentativesDiffer(groups, i, n);
    KeepsStored(out, Representative(g), GroupRecord(src, g), Representative(groups[n].1), out');
  }

  lemma {:induction false} ProcessHolds(src: Sources, groups: Dict<string, seq<string>>)
    requires SeriesGroups(groups)
    ensures Holds(src, groups, Process(src, groups))
  {
    if groups != [] {
      var init := groups[..|groups| - 1];
      assert SeriesGroups(init) by {
        forall i, j | 0 <= i < j < |init| ensures init[i].0 != init[j].0 {
          assert init[i] == groups[i] && init[j] == groups[j];
        }
      }
      ProcessHolds(src, init);
      var out := Process(src, init);
      var g := groups[|groups| - 1].1;
      RepresentativeFresh(groups, out);
      AddGroupFacts(src, out, g);
      KeysStep(groups, out, AddGroup(src, out, g));
      StoredStep(src, groups, out, AddGroup(src, out, g));
    }
  }

  /** The tables of `tableNames` in the series of `n`, in their order. */
  function SeriesOf(tableNames: seq<string>, n: string): seq<string> {
    ValuesOf(MapSeq(SeriesTag, tableNames), RemoveDigits(n))
  }

  /** The group filed under `groups[i].0` is the series of its members. */
  lemma GroupIsSeries(tableNames: seq<string>, i: nat)
    requires i < |GroupTablesBySeries(tableNames)|
    ensures GroupTablesBySeries(tableNames)[i].1 != []
    ensures forall n :: n in GroupTablesBySeries(tableNames)[i].1 ==>
                         n in tableNames && SeriesOf(tableNames, n) == GroupTablesBySeries(tableNames)[i].1
  {
    var groups := GroupTablesBySeries(tableNames);
    var pairs := MapSeq(SeriesTag, tableNames);
    GroupTablesFacts(tableNames);
    GroupByFacts(pairs);
    assert SeriesGroup(groups[i], tableNames);
    Series.GetDistinct(groups, i);
    assert groups[i].0 in Keys(groups);
  }


  lemma ProcessTableSeriesHolds(src: Sources, tableNames: seq<string>)
    ensures SeriesGroups(GroupTablesBySeries(tableNames))
    ensures Holds(src, GroupTablesBySeries(tableNames), ProcessTableSeries(src, tableNames))
  {
    var groups := GroupTablesBySeries(tableNames);
    GroupTablesFacts(tableNames);
    forall i, x | 0 <= i < |groups| && x in groups[i].1
      ensures RemoveDigits(x) == groups[i].0
    {
      assert SeriesGroup(groups[i], tableNames);
    }
    ProcessHolds(src, groups);
  }

  /** Each table is covered by the entry of its series. */
  lemma NameStored(src: Sources, tableNames: seq<string>, n: string)
    requires n in tableNames
    ensures n in SeriesOf(tableNames, n)
    ensures GroupStored(src, SeriesOf(tableNames, n), ProcessTableSeries(src, tableNames))
  {
    var groups := GroupTablesBySeries(tableNames);
    GroupTablesFacts(tableNames);
    ProcessTableSeriesHolds(src, tableNames);
    var i :| 0 <= i < |groups| && groups[i].0 == RemoveDigits(n);
    Series.GetDistinct(groups, i);
    GroupIsSeries(tableNames, i);
    assert GroupStored(src, groups[i].1, ProcessTableSeries(src, tableNames));
  }

  /** Each stored table is the representative of a series. */
  lemma StoredIsRepresentative(src: Sources, tableNames: seq<string>, t: string)
    requires t in Keys(ProcessTableSeries(src, tableNames).dbContent)
    ensures exists n :: n in tableNames && SeriesOf(tableNames, n) != [] && t == Representative(SeriesOf(tableNames, n))
  {
    var groups := GroupTablesBySeries(tableNames);
    ProcessTableSeriesHolds(src, tableNames);
    var i :| 0 <= i < |groups| && groups[i].1 != [] && Representative(groups[i].1) == t;
    GroupIsSeries(tableNames, i);
    var n := groups[i].1[0];
    assert n in groups[i].1;
  }

  /** What `process_table_series` returns: every table is covered by the
      entry of its series, stored under the series' least table name; the
      stored names are exactly such representatives, listed once; member
      lists and descriptions exist for the same tables, all of them stored. */
  lemma ProcessTableSeriesFacts(src: Sources, tableNames: seq<string>)
    ensures var out := ProcessTableSeries(src, tableNames);
            DistinctKeys(out.dbContent) && DistinctKeys(out.tableInfo) && DistinctKeys(out.summary)
    ensures var out := ProcessTableSeries(src, tableNames);
            forall t :: t in Keys(out.tableInfo) <==> t in Keys(out.summary)
    ensures var out := ProcessTableSeries(src, tableNames);
            forall t :: t in Keys(out.tableInfo) ==> t in Keys(out.dbContent)
    ensures forall n :: n in tableNames ==> n in SeriesOf(tableNames, n)
    ensures forall n :: n in tableNames ==> GroupStored(src, SeriesOf(tableNames, n), ProcessTableSeries(src, tableNames))
    ensures forall t :: t in Keys(ProcessTableSeries(src, tableNames).dbContent) ==>
                          exists n :: n in tableNames && SeriesOf(tableNames, n) != [] &&
                                      t == Representative(SeriesOf(tableNames, n))
  {
    ProcessTableSeriesHolds(src, tableNames);
    forall n | n in tableNames
      ensures n in SeriesOf(tableNames, n) && GroupStored(src, SeriesOf(tableNames, n), ProcessTableSeries(src, tableNames))
    {
      NameStored(src, tableNames, n);
    }
    forall t | t in Keys(ProcessTableSeries(src, tableNames).dbContent)
      ensures exists n :: n in tableNames && SeriesOf(tableNames, n) != [] &&
                          t == Representative(SeriesOf(tableNames, n))
    {
      StoredIsRepresentative(src, tableNames, t);
    }
  }

  // ----- the loops of process_table_series -----

  /** The column loop of a single table. */
  method SingleColumns(src: Sources, table: string) returns (entries: seq<ColumnEntry>)
    ensures entries == SingleEntries(src, table)
  {
    var cols := TableSchema(src, table);
    entries := [];
    for i := 0 to |cols|
      invariant entries == seq(i, j requires 0 <= j < i => Entry(cols[j], Examples(src, table, cols[j].name, ExampleLimit)))
    {
      var examples := Examples(src, table, cols[i].name, ExampleLimit);
      entries := entries + [Entry(cols[i], examples)];
    }
  }

  /** The example loop of one series column: one example from each of the
      first three tables until three are gathered. */
  method AggregateExamples(src: Sources, sorted: seq<string>, column: string) returns (examples: seq<string>)
    ensures examples == SeriesExamples(src, sorted, column)
  {
    var first := Take(sorted, 3);
    var all: seq<string> := [];
    var k := 0;
    while k < |first|
      invariant 0 <= k <= |first|
      invariant Gather(src, first[k..], column, all) == Gather(src, first, column, [])
    {
      assert first[k..][1..] == first[k + 1..];
      all := all + Examples(src, first[k], column, 1);
      k := k + 1;
      if |all| >= ExampleLimit {
        break;
      }
    }
    examples := Take(all, ExampleLimit);
  }

  /** The column loop of a series' representative. */
  method SeriesColumns(src: Sources, sorted: seq<string>, rep: string) returns (entries: seq<ColumnEntry>)
    ensures entries == SeriesEntries(src, sorted, rep)
  {
    var cols := TableSchema(src, rep);
    entries := [];
    for i := 0 to |cols|
      invariant entries == seq(i, j requires 0 <= j < i => Entry(cols[j], SeriesExamples(src, sorted, cols[j].name)))
    {
      var examples := AggregateExamples(src, sorted, cols[i].name);
      entries := entries + [Entry(cols[i], examples)];
    }
  }

  /** The loop filling `extra_cols_info`. */
  method ExtraColsInfo(src: Sources, repNames: set<string>, others: seq<string>) returns (info: Dict<string, string>)
    ensures info == ExtraInfo(src, repNames, others)
  {
    info := [];
    for k := 0 to |others|
      invariant info == ExtraInfo(src, repNames, others[..k])
    {
      assert others[..k + 1][..k] == others[..k];
      var extra := ExtraColumn(repNames, TableSchema(src, others[k]));
      if extra.Some? {
        info := Put(info, others[k], extra.value);
      }
    }
    assert others[..|others|] == others;
  }

  /** `_generate_table_group_description`, with its retry loop. */
  method DescribeGroup(tableList: seq<string>, rep: string, extra: Dict<string, string>, answers: seq<Option<string>>)
    returns (d: Described)
    ensures d == GroupDescription(tableList, rep, extra, answers)
  {
    var similar := Without(tableList, rep);
    if |tableList| <= 5 {
      return Described(SmallDescription(similar, rep, extra), 0);
    }
    var fallback := Template(similar, rep);
    var attempt: nat := 0;
    while attempt < MaxRetries
      invariant attempt <= MaxRetries
      invariant LlmDescription(answers, attempt, fallback) == LlmDescription(answers, 0, fallback)
      decreases MaxRetries - attempt
    {
      var answer := Answer(answers, attempt);
      if answer.Some? {
        return Described(answer.value, attempt + 1);
      }
      attempt := attempt + 1;
      if attempt >= MaxRetries {
        return Described(fallback, attempt);
      }
    }
    return Described(fallback, attempt);
  }

  /** One pass of the group loop. */
  method ProcessGroup(src: Sources, out: SeriesOutput, group: seq<string>) returns (out': SeriesOutput)
    requires group != []
    ensures out' == AddGroup(src, out, group)
  {
    if |group| == 1 {
      var entries := SingleColumns(src, group[0]);
      out' := out.(dbContent := Put(out.dbContent, group[0], entries));
    } else {
      SortFacts(group);
      var sorted := Sort(group);
      var rep := sorted[0];
      var extra := ExtraColsInfo(src, LowerNames(TableSchema(src, rep)), sorted[1..]);
      var description := DescribeGroup(sorted, rep, extra, src.answers(rep));
      var entries := SeriesColumns(src, sorted, rep);
      out' := SeriesOutput(Put(out.dbContent, rep, entries),
                           Put(out.tableInfo, rep, Without(sorted, rep)),
                           Put(out.summary, rep, description.text));
    }
  }

  /** `process_table_series`: the loop over the groups, in their order. */
  method ProcessTables(src: Sources, tableNames: seq<string>) returns (out: SeriesOutput)
    ensures out == ProcessTableSeries(src, tableNames)
  {
    var groups := GroupTables(tableNames);
    GroupTablesFacts(tableNames);
    out := SeriesOutput([], [], []);
    for k := 0 to |groups|
      invariant NonEmptyGroups(groups[..k])
      invariant out == Process(src, groups[..k])
    {
      assert SeriesGroup(groups[k], tableNames);
      ghost var prefix := groups[..k + 1];
      assert prefix[..|prefix| - 1] == groups[..k] && prefix[|prefix| - 1] == groups[k];
      assert NonEmptyGroups(prefix);
      out := ProcessGroup(src, out, groups[k].1);
      assert out == Process(src, prefix);
    }
    assert groups[..|groups|] == groups;
  }
}
