/** The tables and columns a generated SQL query uses, as a second model
    call reads them off the query (utils/SL/Extract_tables_col.py). For
    SQLite, MySQL and Doris the model's map is checked against the stored
    schema: names are matched case-insensitively and reported in their
    stored case. For Snowflake and BigQuery only the table names of the
    model's map are kept. Each call is an oracle entry: the parsed map, or
    `None` when the call raised or its answer did not parse. */
module ExtractTables {
  import opened Basics
  import opened Text
  import opened Dicts
  import opened RelationalSchema
  import SchemaLinking
  import Series

  type TableMap = SchemaLinking.TableMap
  type Tables = Dict<string, seq<Column>>

  const MaxAttempts: nat := 10

  // ----- Get_SL_func_sqlite, Get_SL_func_mysql -----

  /** The value the model gave a table: a list of column names, or
      something else, which counts as no columns. */
  datatype ColumnsValue = Columns(names: seq<string>) | NotAList

  /** A parsed answer of the model. */
  type Answer = Dict<string, ColumnsValue>

  function ColumnName(c: Column): string {
    c.name
  }

  /** `{t.lower(): t for t in schema_tables.keys()}` */
  function TableIndex(schema: Tables): Dict<string, string> {
    IndexBy(Keys(schema), Lower)
  }

  /** `{col_info[0].lower(): col_info[0] for col_info in cols_data}` */
  function ColumnIndex(cols: seq<Column>): Dict<string, string> {
    IndexBy(MapSeq(ColumnName, cols), Lower)
  }

  /** The columns the index knows, in the model's order, in stored case. */
  function ValidColumns(index: Dict<string, string>, cols: seq<string>): seq<string> {
    if cols == [] then []
    else
      ValidColumns(index, cols[..|cols| - 1]) +
      (match Get(index, Lower(cols[|cols| - 1])) case Some(x) => [x] case None => [])
  }

  function Requested(v: ColumnsValue): seq<string> {
    if v.Columns? then v.names else []
  }

  /** The validated columns of the stored table `table` for one entry. */
  function EntryColumns(schema: Tables, table: string, v: ColumnsValue): seq<string> {
    ValidColumns(ColumnIndex(GetOr(schema, table, [])), Requested(v))
  }

  /** Whether an entry for a known table is recorded: always without the
      column check; with it, SQLite (`keepEmpty`) records a table even when
      none of its columns is valid, MySQL and Doris do not. */
  predicate Accepted(schema: Tables, checkColumns: bool, keepEmpty: bool, table: string, v: ColumnsValue) {
    !checkColumns || keepEmpty || EntryColumns(schema, table, v) != []
  }

  /** One entry of the answer validated into `acc`: an unknown table is
      dropped; a known one is written under its stored name. */
  function ValidateEntry(acc: TableMap, schema: Tables, checkColumns: bool, keepEmpty: bool, e: (string, ColumnsValue)): TableMap {
    match Get(TableIndex(schema), Lower(e.0))
    case None => acc
    case Some(t) =>
      if !Accepted(schema, checkColumns, keepEmpty, t, e.1) then acc
      else Put(acc, t, if checkColumns then EntryColumns(schema, t, e.1) else [])
  }

  /** The validation of a whole answer, entry by entry. */
  function Validate(schema: Tables, checkColumns: bool, keepEmpty: bool, answer: Answer): TableMap {
    if answer == [] then []
    else ValidateEntry(Validate(schema, checkColumns, keepEmpty, answer[..|answer| - 1]),
                       schema, checkColumns, keepEmpty, answer[|answer| - 1])
  }

  /** The validated tables and the number of model calls made. */
  datatype Validated = Validated(tables: TableMap, calls: nat)

  function Reply(replies: seq<Option<Answer>>, k: nat): Option<Answer> {
    if k < |replies| then replies[k] else None
  }

  /** What attempt `k` yields; nothing when the call raised. */
  function AttemptResult(schema: Tables, checkColumns: bool, keepEmpty: bool, replies: seq<Option<Answer>>, k: nat): TableMap {
    match Reply(replies, k)
    case Some(answer) => Validate(schema, checkColumns, keepEmpty, answer)
    case None => []
  }

  /** What each of the ten attempts yields. */
  function Attempts(schema: Tables, checkColumns: bool, keepEmpty: bool, replies: seq<Option<Answer>>): (r: seq<TableMap>)
    ensures |r| == MaxAttempts
  {
    seq(MaxAttempts, k requires 0 <= k < MaxAttempts => AttemptResult(schema, checkColumns, keepEmpty, replies, k))
  }

  /** The retry loop from attempt `attempt` on: the first non-empty
      validation wins; after the last attempt, nothing. */
  function Retry(results: seq<TableMap>, attempt: nat): Validated
    decreases |results| - attempt
  {
    if attempt >= |results| then Validated([], attempt)
    else if results[attempt] != [] then Validated(results[attempt], attempt + 1)
    else Retry(results, attempt + 1)
  }

  /** Get_SL_func_sqlite (`keepEmpty` true) and Get_SL_func_mysql
      (`keepEmpty` false): no schema file, an unparsable one, or no tables
      under `db_name` give nothing without calling the model. */
  function ValidatedTables(file: Loaded<SchemaFile>, dbName: string, checkColumns: bool, keepEmpty: bool,
                           replies: seq<Option<Answer>>): Validated
  {
    match file
    case Parsed(f) =>
      var schema := GetOr(f.databases, dbName, []);
      if schema == [] then Validated([], 0) else Retry(Attempts(schema, checkColumns, keepEmpty, replies), 0)
    case _ => Validated([], 0)
  }

  /** A name found in a case-insensitive index is a stored name of that
      lower-case form, and every stored name is found. */
  lemma IndexFinds(names: seq<string>, k: string)
    ensures Get(IndexBy(names, Lower), k).Some? <==> exists n :: n in names && Lower(n) == k
    ensures Get(IndexBy(names, Lower), k).Some? ==>
      Get(IndexBy(names, Lower), k).value in names && Lower(Get(IndexBy(names, Lower), k).value) == k
  {
    IndexByGet(names, Lower, k);
    if exists n :: n in names && Lower(n) == k {
      var n :| n in names && Lower(n) == k;
      var i :| 0 <= i < |names| && names[i] == n;
    }
  }

  /** A validated column is, for some column the model named, the stored
      column with the same lower-case name. */
  lemma {:induction false} ValidColumnsMembers(index: Dict<string, string>, cols: seq<string>, x: string)
    ensures x in ValidColumns(index, cols) <==> exists c :: c in cols && Get(index, Lower(c)) == Some(x)
  {
    if cols != [] {
      var init := cols[..|cols| - 1];
      ValidColumnsMembers(index, init, x);
      assert cols == init + [cols[|cols| - 1]];
    }
  }

  /** Validated columns are stored columns of the table, each matching,
      case-insensitively, a column the model named. */
  lemma EntryColumnsFacts(schema: Tables, table: string, v: ColumnsValue, x: string)
    requires x in EntryColumns(schema, table, v)
    ensures x in MapSeq(ColumnName, GetOr(schema, table, []))
    ensures exists c :: c in Requested(v) && Lower(c) == Lower(x)
  {
    var names := MapSeq(ColumnName, GetOr(schema, table, []));
    ValidColumnsMembers(ColumnIndex(GetOr(schema, table, [])), Requested(v), x);
    var c :| c in Requested(v) && Get(IndexBy(names, Lower), Lower(c)) == Some(x);
    IndexFinds(names, Lower(c));
  }

  /** Some entry of the answer names stored table `t` and is accepted. */
  ghost predicate Named(schema: Tables, checkColumns: bool, keepEmpty: bool, answer: Answer, t: string) {
    exists e :: e in answer && Get(TableIndex(schema), Lower(e.0)) == Some(t) && Accepted(schema, checkColumns, keepEmpty, t, e.1)
  }

  /** Some accepted entry of the answer naming stored table `t` gives it
      the columns `v`. */
  ghost predicate Backs(schema: Tables, checkColumns: bool, keepEmpty: bool, answer: Answer, t: string, v: seq<string>) {
    exists e :: e in answer && Get(TableIndex(schema), Lower(e.0)) == Some(t) && Accepted(schema, checkColumns, keepEmpty, t, e.1) && v == (if checkColumns then EntryColumns(schema, t, e.1) else [])
  }

  /** What the validated map holds after each entry. */
  ghost predicate ValidatedFrom(r: TableMap, schema: Tables, checkColumns: bool, keepEmpty: bool, answer: Answer) {
    && DistinctKeys(r)
    && (forall t :: t in Keys(r) <==> Named(schema, checkColumns, keepEmpty, answer, t))
    && (forall t :: Get(r, t).Some? ==> Backs(schema, checkColumns, keepEmpty, answer, t, Get(r, t).value))
  }

  lemma NamedSnoc(schema: Tables, checkColumns: bool, keepEmpty: bool, answer: Answer, e: (string, ColumnsValue), t: string)
    ensures Named(schema, checkColumns, keepEmpty, answer + [e], t) <==>
      (Named(schema, checkColumns, keepEmpty, answer, t) ||
       (Get(TableIndex(schema), Lower(e.0)) == Some(t) && Accepted(schema, checkColumns, keepEmpty, t, e.1)))
  {
    var a' := answer + [e];
    if Named(schema, checkColumns, keepEmpty, a', t) {
      var f :| f in a' && Get(TableIndex(schema), Lower(f.0)) == Some(t) && Accepted(schema, checkColumns, keepEmpty, t, f.1);
      if f != e {
        assert f in answer;
      }
    }
    if Named(schema, checkColumns, keepEmpty, answer, t) {
      var f :| f in answer && Get(TableIndex(schema), Lower(f.0)) == Some(t) && Accepted(schema, checkColumns, keepEmpty, t, f.1);
      assert f in a';
    }
    assert e in a';
  }

  lemma BacksSnoc(schema: Tables, checkColumns: bool, keepEmpty: bool, answer: Answer, e: (string, ColumnsValue), t: string, v: seq<string>)
    requires Backs(schema, checkColumns, keepEmpty, answer, t, v)
    ensures Backs(schema, checkColumns, keepEmpty, answer + [e], t, v)
  {
    var f :| f in answer && Get(TableIndex(schema), Lower(f.0)) == Some(t) && Accepted(schema, checkColumns, keepEmpty, t, f.1) &&
      v == (if checkColumns then EntryColumns(schema, t, f.1) else []);
    assert f in answer + [e];
  }

  /** An entry that records nothing keeps what the map promises. */
  lemma SkipStep(r: TableMap, schema: Tables, checkColumns: bool, keepEmpty: bool, answer: Answer, e: (string, ColumnsValue))
    requires ValidatedFrom(r, schema, checkColumns, keepEmpty, answer)
    requires match Get(TableIndex(schema), Lower(e.0))
      case None => true
      case Some(t) => !Accepted(schema, checkColumns, keepEmpty, t, e.1)
    ensures ValidatedFrom(r, schema, checkColumns, keepEmpty, answer + [e])
  {
    forall t ensures t in Keys(r) <==> Named(schema, checkColumns, keepEmpty, answer + [e], t) {
      NamedSnoc(schema, checkColumns, keepEmpty, answer, e, t);
    }
    forall t | Get(r, t).Some?
      ensures Backs(schema, checkColumns, keepEmpty, answer + [e], t, Get(r, t).value)
    {
      BacksSnoc(schema, checkColumns, keepEmpty, answer, e, t, Get(r, t).value);
    }
  }

  /** An accepted entry for stored table `t` records it with its columns. */
  lemma PutStep(r: TableMap, schema: Tables, checkColumns: bool, keepEmpty: bool, answer: Answer, e: (string, ColumnsValue), t: string, v: seq<string>)
    requires ValidatedFrom(r, schema, checkColumns, keepEmpty, answer)
    requires Get(TableIndex(schema), Lower(e.0)) == Some(t) && Accepted(schema, checkColumns, keepEmpty, t, e.1)
    requires v == if checkColumns then EntryColumns(schema, t, e.1) else []
    ensures ValidatedFrom(Put(r, t, v), schema, checkColumns, keepEmpty, answer + [e])
  {
    var a' := answer + [e];
    var r' := Put(r, t, v);
    PutKeepsDistinct(r, t, v);
    forall t' ensures t' in Keys(r') <==> Named(schema, checkColumns, keepEmpty, a', t') {
      NamedSnoc(schema, checkColumns, keepEmpty, answer, e, t');
      assert t' in Keys(r') <==> t' in Keys(r) || t' == t;
    }
    forall t' | Get(r', t').Some?
      ensures Backs(schema, checkColumns, keepEmpty, a', t', Get(r', t').value)
    {
      if t' == t {
        assert e in a';
      } else {
        BacksSnoc(schema, checkColumns, keepEmpty, answer, e, t', Get(r, t').value);
      }
    }
    assert ValidatedFrom(r', schema, checkColumns, keepEmpty, a');
  }

  lemma ValidateEntryStep(r: TableMap, schema: Tables, checkColumns: bool, keepEmpty: bool, answer: Answer, e: (string, ColumnsValue))
    requires ValidatedFrom(r, schema, checkColumns, keepEmpty, answer)
    ensures ValidatedFrom(ValidateEntry(r, schema, checkColumns, keepEmpty, e), schema, checkColumns, keepEmpty, answer + [e])
  {
    match Get(TableIndex(schema), Lower(e.0))
    case None =>
      SkipStep(r, schema, checkColumns, keepEmpty, answer, e);
    case Some(t) =>
      if Accepted(schema, checkColumns, keepEmpty, t, e.1) {
        PutStep(r, schema, checkColumns, keepEmpty, answer, e, t, if checkColumns then EntryColumns(schema, t, e.1) else []);
      } else {
        SkipStep(r, schema, checkColumns, keepEmpty, answer, e);
      }
  }

  lemma {:induction false} ValidateFacts(schema: Tables, checkColumns: bool, keepEmpty: bool, answer: Answer)
    ensures ValidatedFrom(Validate(schema, checkColumns, keepEmpty, answer), schema, checkColumns, keepEmpty, answer)
  {
    if answer != [] {
      var init := answer[..|answer| - 1];
      var e := answer[|answer| - 1];
      ValidateFacts(schema, checkColumns, keepEmpty, init);
      ValidateEntryStep(Validate(schema, checkColumns, keepEmpty, init), schema, checkColumns, keepEmpty, init, e);
      assert init + [e] == answer;
    }
  }

  /** The columns recorded for stored table `t` from the model's value `v`:
      none without the column check; with it, stored columns of `t`, each
      matching, case-insensitively, a column the model named. */
  ghost predicate ColumnsBacked(schema: Tables, checkColumns: bool, t: string, v: ColumnsValue, cols: seq<string>) {
    && (!checkColumns ==> cols == [])
    && forall x :: x in cols ==>
         && x in MapSeq(ColumnName, GetOr(schema, t, []))
         && exists c :: c in Requested(v) && Lower(c) == Lower(x)
  }

  /** What validation promises of one recorded table. */
  ghost predicate SoundEntry(schema: Tables, checkColumns: bool, keepEmpty: bool, answer: Answer, p: (string, seq<string>)) {
    && p.0 in Keys(schema)
    && (checkColumns && !keepEmpty ==> p.1 != [])
    && exists e :: e in answer && Lower(e.0) == Lower(p.0) && ColumnsBacked(schema, checkColumns, p.0, e.1, p.1)
  }

  lemma SoundFromBacks(schema: Tables, checkColumns: bool, keepEmpty: bool, answer: Answer, t: string, v: seq<string>)
    requires Backs(schema, checkColumns, keepEmpty, answer, t, v)
    ensures SoundEntry(schema, checkColumns, keepEmpty, answer, (t, v))
  {
    var e :| e in answer && Get(TableIndex(schema), Lower(e.0)) == Some(t) && Accepted(schema, checkColumns, keepEmpty, t, e.1) &&
      v == (if checkColumns then EntryColumns(schema, t, e.1) else []);
    IndexFinds(Keys(schema), Lower(e.0));
    forall x | x in v
      ensures x in MapSeq(ColumnName, GetOr(schema, t, [])) && exists c :: c in Requested(e.1) && Lower(c) == Lower(x)
    {
      EntryColumnsFacts(schema, t, e.1, x);
    }
    assert ColumnsBacked(schema, checkColumns, t, e.1, v);
  }

  /** The stored names of the tables the model's entries name, in the
      answer's order; entries naming no stored table are left out. */
  function NamedStored(schema: Tables, answer: Answer): seq<string> {
    if answer == [] then []
    else
      var init := NamedStored(schema, answer[..|answer| - 1]);
      match Get(TableIndex(schema), Lower(answer[|answer| - 1].0))
      case None => init
      case Some(t) => init + [t]
  }

  lemma SublistSnoc(a: seq<string>, b: seq<string>, x: string)
    requires Series.Sublist(a, b)
    ensures Series.Sublist(a, b + [x])
  {
    assert (b + [x])[..|b|] == b;
  }

  /** The validated tables keep the order in which the model first names
      them: a table named again keeps its place. */
  lemma {:induction false} ValidateOrder(schema: Tables, checkColumns: bool, keepEmpty: bool, answer: Answer)
    ensures Series.Sublist(Keys(Validate(schema, checkColumns, keepEmpty, answer)), NamedStored(schema, answer))
  {
    if answer != [] {
      var init := answer[..|answer| - 1];
      var e := answer[|answer| - 1];
      var prev := Validate(schema, checkColumns, keepEmpty, init);
      var names := NamedStored(schema, init);
      ValidateOrder(schema, checkColumns, keepEmpty, init);
      match Get(TableIndex(schema), Lower(e.0))
      case None =>
      case Some(t) =>
        if Accepted(schema, checkColumns, keepEmpty, t, e.1) && t !in Keys(prev) {
          var ks := Keys(prev) + [t];
          assert ks[..|ks| - 1] == Keys(prev);
          assert (names + [t])[..|names|] == names;
        } else {
          SublistSnoc(Keys(prev), names, t);
        }
    }
  }

  /** The validated map: each key is the stored name of a table the model
      named (in any case), listed once and in the order the model first
      named it, with the columns of one of the model's entries for it,
      checked against the stored table; MySQL never keeps a table with no
      valid column. */
  lemma ValidateSound(schema: Tables, checkColumns: bool, keepEmpty: bool, answer: Answer)
    ensures DistinctKeys(Validate(schema, checkColumns, keepEmpty, answer))
    ensures forall p :: p in Validate(schema, checkColumns, keepEmpty, answer) ==> SoundEntry(schema, checkColumns, keepEmpty, answer, p)
    ensures Series.Sublist(Keys(Validate(schema, checkColumns, keepEmpty, answer)), NamedStored(schema, answer))
  {
    var r := Validate(schema, checkColumns, keepEmpty, answer);
    ValidateFacts(schema, checkColumns, keepEmpty, answer);
    ValidateOrder(schema, checkColumns, keepEmpty, answer);
    forall p | p in r
      ensures SoundEntry(schema, checkColumns, keepEmpty, answer, p)
    {
      var i :| 0 <= i < |r| && r[i] == p;
      Series.GetDistinct(r, i);
      SoundFromBacks(schema, checkColumns, keepEmpty, answer, p.0, p.1);
    }
  }

  /** Every table the model names that is stored (in any case) is
      recorded under its stored name, unless MySQL finds none of its
      columns. */
  lemma ValidateComplete(schema: Tables, checkColumns: bool, keepEmpty: bool, answer: Answer, e: (string, ColumnsValue), t: string)
    requires e in answer && t in Keys(schema) && Lower(t) == Lower(e.0)
    ensures Get(TableIndex(schema), Lower(e.0)).Some?
    ensures var t' := Get(TableIndex(schema), Lower(e.0)).value;
      && Lower(t') == Lower(t)
      && t' in Keys(schema)
      && (Accepted(schema, checkColumns, keepEmpty, t', e.1) ==> t' in Keys(Validate(schema, checkColumns, keepEmpty, answer)))
  {
    ValidateFacts(schema, checkColumns, keepEmpty, answer);
    IndexFinds(Keys(schema), Lower(e.0));
  }

  /** SQLite keeps a known table whose columns all fail the check; MySQL
      drops it, and with nothing else valid the attempt counts as failed. */
  lemma KeepEmptyDiffers()
    ensures var schema: Tables := [("Orders", [Column("id", "Primary Key", "INTEGER", "", "")])];
            var answer: Answer := [("orders", Columns(["total"]))];
            && Validate(schema, true, true, answer) == [("Orders", [])]
            && Validate(schema, true, false, answer) == []
  {
    var schema: Tables := [("Orders", [Column("id", "Primary Key", "INTEGER", "", "")])];
    var answer: Answer := [("orders", Columns(["total"]))];
    assert answer[..0] == [];
    OrdersLookup();
    assert Lower("orders") == "orders";
    assert Get(TableIndex(schema), "orders") == Some("Orders");
  }

  lemma OrdersLookup()
    ensures var schema: Tables := [("Orders", [Column("id", "Primary Key", "INTEGER", "", "")])];
            && TableIndex(schema) == [("orders", "Orders")]
            && EntryColumns(schema, "Orders", Columns(["total"])) == []
  {
    var schema: Tables := [("Orders", [Column("id", "Primary Key", "INTEGER", "", "")])];
    assert Keys(schema) == ["Orders"];
    assert Keys(schema)[..0] == [];
    assert Lower("Orders") == "orders" by {
      assert Lower("Orders")[0] == LowerChar('O') == 'o';
    }
    assert TableIndex(schema) == [("orders", "Orders")];
    OrdersColumns();
    assert ["total"][..0] == [];
    assert Lower("total") == "total";
  }

  lemma OrdersColumns()
    ensures ColumnIndex([Column("id", "Primary Key", "INTEGER", "", "")]) == [("id", "id")]
  {
    var names := MapSeq(ColumnName, [Column("id", "Primary Key", "INTEGER", "", "")]);
    assert names == ["id"];
    assert names[..0] == [];
    assert Lower("id") == "id";
    assert IndexBy(names, Lower) == Put([], "id", "id");
  }

  /** The retry loop: a non-empty result is what the last attempt made
      yields, every earlier attempt having yielded nothing; an empty result
      means every attempt was spent. */
  lemma {:induction false} RetryFacts(results: seq<TableMap>, attempt: nat)
    requires attempt <= |results|
    ensures var r := Retry(results, attempt);
      && attempt <= r.calls <= |results|
      && (r.tables != [] ==> attempt < r.calls && r.tables == results[r.calls - 1])
      && (r.tables == [] ==> r.calls == |results|)
      && (forall k :: attempt <= k < r.calls - 1 ==> results[k] == [])
      && (r.tables == [] ==> forall k :: attempt <= k < |results| ==> results[k] == [])
    decreases |results| - attempt
  {
    if attempt < |results| && results[attempt] == [] {
      RetryFacts(results, attempt + 1);
    }
  }

  /** Get_SL_func_sqlite and Get_SL_func_mysql call the model at most ten
      times; tables come back only from a stored schema, from the last
      call made, every earlier call having yielded nothing; no tables means
      no call at all or all ten spent. */
  lemma ValidatedTablesFacts(file: Loaded<SchemaFile>, dbName: string, checkColumns: bool, keepEmpty: bool, replies: seq<Option<Answer>>)
    ensures ValidatedTables(file, dbName, checkColumns, keepEmpty, replies).calls <= MaxAttempts
    ensures var r := ValidatedTables(file, dbName, checkColumns, keepEmpty, replies);
      r.tables == [] ==> r.calls == 0 || r.calls == MaxAttempts
    ensures var r := ValidatedTables(file, dbName, checkColumns, keepEmpty, replies);
      r.tables != [] ==> file.Parsed? && 0 < r.calls
    ensures var r := ValidatedTables(file, dbName, checkColumns, keepEmpty, replies);
      r.tables != [] ==>
        && r.tables == AttemptResult(GetOr(file.data.databases, dbName, []), checkColumns, keepEmpty, replies, r.calls - 1)
        && forall k :: 0 <= k < r.calls - 1 ==> AttemptResult(GetOr(file.data.databases, dbName, []), checkColumns, keepEmpty, replies, k) == []
  {
    if file.Parsed? && GetOr(file.data.databases, dbName, []) != [] {
      var schema := GetOr(file.data.databases, dbName, []);
      var results := Attempts(schema, checkColumns, keepEmpty, replies);
      assert ValidatedTables(file, dbName, checkColumns, keepEmpty, replies) == Retry(results, 0);
      RetryFacts(results, 0);
      assert forall k :: 0 <= k < MaxAttempts ==> results[k] == AttemptResult(schema, checkColumns, keepEmpty, replies, k);
    }
  }

  /** No model call is made when the schema is missing or holds no tables
      under `db_name`. */
  lemma NoSchemaNoCall(file: Loaded<SchemaFile>, dbName: string, checkColumns: bool, keepEmpty: bool, replies: seq<Option<Answer>>)
    requires !file.Parsed? || GetOr(file.data.databases, dbName, []) == []
    ensures ValidatedTables(file, dbName, checkColumns, keepEmpty, replies) == Validated([], 0)
  {
  }

  /** The column loop of one table. */
  method ValidateColumns(index: Dict<string, string>, cols: seq<string>) returns (validated: seq<string>)
    ensures validated == ValidColumns(index, cols)
  {
    validated := [];
    var j := 0;
    while j < |cols|
      invariant 0 <= j <= |cols|
      invariant validated == ValidColumns(index, cols[..j])
    {
      assert cols[..j + 1][..j] == cols[..j];
      var found := Get(index, Lower(cols[j]));
      if found.Some? {
        validated := validated + [found.value];
      }
      j := j + 1;
    }
    assert cols[..j] == cols;
  }

  /** One pass of the table loop. */
  method ValidateOne(acc: TableMap, schema: Tables, checkColumns: bool, keepEmpty: bool,
                     tableIndex: Dict<string, string>, entry: (string, ColumnsValue)) returns (result: TableMap)
    requires tableIndex == TableIndex(schema)
    ensures result == ValidateEntry(acc, schema, checkColumns, keepEmpty, entry)
  {
    result := acc;
    var (llmTable, llmCols) := entry;
    var found := Get(tableIndex, Lower(llmTable));
    if found.Some? {
      var original := found.value;
      if !checkColumns {
        result := Put(result, original, []);
      } else {
        var colIndex := BuildIndex(MapSeq(ColumnName, GetOr(schema, original, [])), Lower);
        var validated := ValidateColumns(colIndex, Requested(llmCols));
        if validated != [] || keepEmpty {
          result := Put(result, original, validated);
        }
      }
    }
  }

  /** The table loop over one answer. */
  method ValidateAnswer(schema: Tables, checkColumns: bool, keepEmpty: bool, answer: Answer) returns (result: TableMap)
    ensures result == Validate(schema, checkColumns, keepEmpty, answer)
  {
    var tableIndex := BuildIndex(Keys(schema), Lower);
    result := [];
    var i := 0;
    while i < |answer|
      invariant 0 <= i <= |answer|
      invariant result == Validate(schema, checkColumns, keepEmpty, answer[..i])
    {
      assert answer[..i + 1][..i] == answer[..i];
      result := ValidateOne(result, schema, checkColumns, keepEmpty, tableIndex, answer[i]);
      i := i + 1;
    }
    assert answer[..i] == answer;
  }

  /** One call of the model and the validation of its answer; an empty
      answer is skipped. */
  method Attempt(schema: Tables, checkColumns: bool, keepEmpty: bool, replies: seq<Option<Answer>>, k: nat)
    returns (validated: TableMap)
    ensures validated == AttemptResult(schema, checkColumns, keepEmpty, replies, k)
  {
    validated := [];
    var reply := Reply(replies, k);
    if reply.Some? && reply.value != [] {
      validated := ValidateAnswer(schema, checkColumns, keepEmpty, reply.value);
    }
  }

  /** Get_SL_func_sqlite and Get_SL_func_mysql. */
  method GetSlFunc(file: Loaded<SchemaFile>, dbName: string, checkColumns: bool, keepEmpty: bool,
                   replies: seq<Option<Answer>>) returns (tables: TableMap, calls: nat)
    ensures Validated(tables, calls) == ValidatedTables(file, dbName, checkColumns, keepEmpty, replies)
  {
    if !file.Parsed? {
      return [], 0;
    }
    var schema := GetOr(file.data.databases, dbName, []);
    if schema == [] {
      return [], 0;
    }
    ghost var results := Attempts(schema, checkColumns, keepEmpty, replies);
    calls := 0;
    while calls < MaxAttempts
      invariant calls <= MaxAttempts
      invariant Retry(results, 0) == Retry(results, calls)
    {
      var validated := Attempt(schema, checkColumns, keepEmpty, replies, calls);
      calls := calls + 1;
      if validated != [] {
        return validated, calls;
      }
    }
    tables := [];
  }

  // ----- Get_SL_func_snow -----

  /** `{table: [] for table in m.keys()}` */
  function EmptyColumns(m: TableMap): (r: TableMap)
    ensures Keys(r) == Keys(m)
  {
    seq(|m|, i requires 0 <= i < |m| => (m[i].0, []))
  }

  /** Whether some table of the map lists a column. */
  predicate ListsColumns(m: TableMap) {
    exists i :: 0 <= i < |m| && m[i].1 != []
  }

  /** The loop of Get_SL_func_snow from attempt `attempt` on, `last` the
      last map parsed. An empty map ends the call with nothing. Without the
      column check the first parsed map's tables are returned. With it, an
      attempt whose map lists some column raises after recording the map
      (the schema's column set is read before it is bound) and the loop
      goes on; a map listing no column leaves nothing unmatched and stops
      the loop. Either way no column is ever matched, so the fallback
      returns the last parsed map's tables. */
  function SnowExtraction(checkColumns: bool, replies: seq<Option<TableMap>>, attempt: nat, last: Option<TableMap>): TableMap
    decreases MaxAttempts - attempt
  {
    if attempt >= MaxAttempts then (match last case Some(m) => EmptyColumns(m) case None => [])
    else
      match SchemaLinking.Call(replies, attempt)
      case None => SnowExtraction(checkColumns, replies, attempt + 1, last)
      case Some(m) =>
        if m == [] then []
        else if !checkColumns || !ListsColumns(m) then EmptyColumns(m)
        else SnowExtraction(checkColumns, replies, attempt + 1, Some(m))
  }

  function GetSlFuncSnowResult(checkColumns: bool, replies: seq<Option<TableMap>>): TableMap {
    SnowExtraction(checkColumns, replies, 0, None)
  }

  /** The last map parsed among the first `n` calls. */
  function LastParsed(replies: seq<Option<TableMap>>, n: nat): Option<TableMap> {
    if n == 0 then None
    else if SchemaLinking.Call(replies, n - 1).Some? then SchemaLinking.Call(replies, n - 1)
    else LastParsed(replies, n - 1)
  }

  /** Without the column check: the tables of the first map parsed, with
      no columns, or nothing when that map is empty. */
  lemma {:induction false} SnowUncheckedFirst(replies: seq<Option<TableMap>>, attempt: nat, last: Option<TableMap>, i: nat)
    requires attempt <= i < MaxAttempts && SchemaLinking.Call(replies, i).Some?
    requires forall j :: attempt <= j < i ==> SchemaLinking.Call(replies, j).None?
    ensures SnowExtraction(false, replies, attempt, last) == EmptyColumns(SchemaLinking.Call(replies, i).value)
    decreases i - attempt
  {
    if attempt < i {
      SnowUncheckedFirst(replies, attempt + 1, last, i);
    }
  }

  /** With the column check: the first parsed map that lists no column
      ends the loop with its tables, with no columns. */
  lemma {:induction false} SnowCheckedFirst(replies: seq<Option<TableMap>>, attempt: nat, last: Option<TableMap>, i: nat)
    requires attempt <= i < MaxAttempts && SchemaLinking.Call(replies, i).Some?
    requires !ListsColumns(SchemaLinking.Call(replies, i).value)
    requires forall j :: attempt <= j < i && SchemaLinking.Call(replies, j).Some? ==> ListsColumns(SchemaLinking.Call(replies, j).value)
    ensures SnowExtraction(true, replies, attempt, last) == EmptyColumns(SchemaLinking.Call(replies, i).value)
    decreases i - attempt
  {
    if attempt < i {
      var r := SchemaLinking.Call(replies, attempt);
      SnowCheckedFirst(replies, attempt + 1, if r.Some? then r else last, i);
    }
  }

  /** With the column check and every parsed map listing some column: the
      tables of the last map parsed, with no columns. */
  lemma {:induction false} SnowCheckedLast(replies: seq<Option<TableMap>>, attempt: nat)
    requires attempt <= MaxAttempts
    requires forall j :: attempt <= j < MaxAttempts && SchemaLinking.Call(replies, j).Some? ==> ListsColumns(SchemaLinking.Call(replies, j).value)
    ensures SnowExtraction(true, replies, attempt, LastParsed(replies, attempt)) ==
      (match LastParsed(replies, MaxAttempts) case Some(m) => EmptyColumns(m) case None => [])
    decreases MaxAttempts - attempt
  {
    if attempt < MaxAttempts {
      SnowCheckedLast(replies, attempt + 1);
    }
  }

  /** Whatever the replies, every table comes back with no columns, and
      the tables are those of one map the model returned. */
  lemma {:induction false} SnowShape(checkColumns: bool, replies: seq<Option<TableMap>>, attempt: nat, last: Option<TableMap>)
    ensures var r := SnowExtraction(checkColumns, replies, attempt, last);
      && (forall i :: 0 <= i < |r| ==> r[i].1 == [])
      && (r == [] || (last.Some? && r == EmptyColumns(last.value)) || SnowFrom(replies, attempt, r))
    decreases MaxAttempts - attempt
  {
    if attempt < MaxAttempts {
      match SchemaLinking.Call(replies, attempt)
      case None =>
        SnowShape(checkColumns, replies, attempt + 1, last);
      case Some(m) =>
        if m != [] && checkColumns && ListsColumns(m) {
          SnowShape(checkColumns, replies, attempt + 1, Some(m));
        }
    }
  }

  /** `r` holds the tables of a map returned at or after `attempt`. */
  ghost predicate SnowFrom(replies: seq<Option<TableMap>>, attempt: nat, r: TableMap) {
    exists k :: attempt <= k < MaxAttempts && SchemaLinking.Call(replies, k).Some? && r == EmptyColumns(SchemaLinking.Call(replies, k).value)
  }

  /** Get_SL_func_snow, the column check left to its fallback. */
  method GetSlFuncSnow(checkColumns: bool, replies: seq<Option<TableMap>>) returns (result: TableMap)
    ensures result == GetSlFuncSnowResult(checkColumns, replies)
  {
    var attempt := 0;
    var lastTableCol: Option<TableMap> := None;
    var stopped := false;
    while attempt < MaxAttempts && !stopped
      invariant attempt <= MaxAttempts
      invariant !stopped ==> SnowExtraction(checkColumns, replies, 0, None) == SnowExtraction(checkColumns, replies, attempt, lastTableCol)
      invariant stopped ==> lastTableCol.Some? && SnowExtraction(checkColumns, replies, 0, None) == EmptyColumns(lastTableCol.value)
    {
      var reply := SchemaLinking.Call(replies, attempt);
      attempt := attempt + 1;
      if reply.Some? {
        var tableCol := reply.value;
        if tableCol == [] {
          return [];
        }
        lastTableCol := Some(tableCol);
        if !checkColumns {
          return EmptyColumns(tableCol);
        }
        if !ListsColumns(tableCol) {
          stopped := true;
        }
      }
    }
    result := if lastTableCol.Some? then EmptyColumns(lastTableCol.value) else [];
  }
}
