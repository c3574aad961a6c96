/** Schema linking (utils/SL/Get_SL.py): the SQL block taken from a model
    reply, the table lists of each database kind, the merge of the table
    maps the sampled queries touch, and the sampling workflows that turn
    those replies into the tables and columns a question needs. The model's
    replies, and what running their SQL gave, are an oracle sequence: one
    entry per call, `None` when the call raised. */
module SchemaLinking {
  import opened Basics
  import opened Text
  import opened Dicts
  import opened Sorting
  import opened Series
  import opened WarehouseSchema
  import RelationalSchema
  import DbIdent

  // ----- extract_sql_code -----

  const SqlOpen: string := "```sql"
  const Fence: string := "```"

  /** Where the next ```sql ... ``` block at or after `from` opens and
      where its closing fence, the first after the opening, stands. */
  function NextBlock(s: string, from: nat): (r: Option<(nat, nat)>)
    ensures r.Some? ==> from <= r.value.0 && r.value.0 + 6 <= r.value.1 && r.value.1 + 3 <= |s|
  {
    match Find(s, SqlOpen, from)
    case None => None
    case Some(p) =>
      match Find(s, Fence, p + 6)
      case None => None
      case Some(e) => Some((p, e))
  }

  /** The bodies of the blocks at or after `from`, left to right: the
      search goes on after each closing fence (a non-greedy
      `re.findall`). */
  function SqlBlocks(s: string, from: nat): seq<string>
    decreases |s| - from
  {
    var next := NextBlock(s, from);
    if next.None? then []
    else [s[next.value.0 + 6..next.value.1]] + SqlBlocks(s, next.value.1 + 3)
  }

  /** extract_sql_code: the last block, stripped; None when there is none. */
  function ExtractSqlCode(text: string): Option<string> {
    var blocks := SqlBlocks(text, 0);
    if blocks == [] then None else Some(Strip(blocks[|blocks| - 1]))
  }

  /** A fence pattern found at `k` when no backtick stands before it. */
  lemma FirstAt(s: string, pat: string, from: nat, k: nat)
    requires pat != [] && pat[0] == '`'
    requires from <= k && StartsAt(s, k, pat)
    requires forall j :: from <= j < k ==> s[j] != '`'
    ensures Find(s, pat, from) == Some(k)
  {
    FindFacts(s, pat, from);
    if Find(s, pat, from).Some? {
      var r := Find(s, pat, from).value;
      assert s[r] == pat[0] by {
        assert s[r..r + |pat|][0] == s[r];
      }
    }
  }

  /** The block that opens at `p`, with no backtick from `from` up to it,
      and closes at `e`, with no backtick inside, is the next one. */
  lemma BlockAt(s: string, from: nat, p: nat, e: nat)
    requires from <= p && p + 6 <= e && StartsAt(s, p, SqlOpen) && StartsAt(s, e, Fence)
    requires forall j :: from <= j < p ==> s[j] != '`'
    requires forall j :: p + 6 <= j < e ==> s[j] != '`'
    ensures NextBlock(s, from) == Some((p, e))
  {
    FirstAt(s, SqlOpen, from, p);
    FirstAt(s, Fence, p + 6, e);
  }

  lemma NoBlockAtEnd(s: string)
    ensures SqlBlocks(s, |s|) == []
  {
    assert NextBlock(s, |s|).None?;
  }

  /** A reply without "```sql" yields no SQL. */
  lemma ExtractNone(text: string)
    requires !Contains(text, SqlOpen)
    ensures ExtractSqlCode(text) == None
  {
    FindFacts(text, SqlOpen, 0);
  }

  /** One block round-trips: its body comes back stripped. */
  lemma ExtractSingle(body: string)
    requires '`' !in body
    ensures ExtractSqlCode(SqlOpen + body + Fence) == Some(Strip(body))
  {
    var s := SqlOpen + body + Fence;
    var e := 6 + |body|;
    assert s[0..6] == SqlOpen && s[6..e] == body && s[e..e + 3] == Fence;
    forall j | 6 <= j < e ensures s[j] != '`' {
      assert s[j] == body[j - 6];
    }
    BlockAt(s, 0, 0, e);
    NoBlockAtEnd(s);
  }

  /** One block step of the search. */
  lemma BlocksStep(s: string, from: nat, p: nat, e: nat)
    requires NextBlock(s, from) == Some((p, e))
    ensures SqlBlocks(s, from) == [s[p + 6..e]] + SqlBlocks(s, e + 3)
  {
  }

  /** Two blocks, the second ending the text, are all the blocks. */
  lemma TwoBlocks(s: string, e1: nat, p2: nat, e2: nat)
    requires NextBlock(s, 0) == Some((0, e1)) && NextBlock(s, e1 + 3) == Some((p2, e2)) && e2 + 3 == |s|
    ensures |SqlBlocks(s, 0)| == 2 && SqlBlocks(s, 0)[1] == s[p2 + 6..e2]
  {
    BlocksStep(s, 0, 0, e1);
    BlocksStep(s, e1 + 3, p2, e2);
    NoBlockAtEnd(s);
  }

  /** Where the two blocks of a text without other backticks are found. */
  lemma TwoBlocksAt(s: string, e1: nat, p2: nat, e2: nat)
    requires 6 <= e1 && e1 + 3 <= p2 && p2 + 6 <= e2 && e2 + 3 == |s|
    requires StartsAt(s, 0, SqlOpen) && StartsAt(s, e1, Fence) && StartsAt(s, p2, SqlOpen) && StartsAt(s, e2, Fence)
    requires forall j :: 6 <= j < e1 || e1 + 3 <= j < p2 || p2 + 6 <= j < e2 ==> s[j] != '`'
    ensures NextBlock(s, 0) == Some((0, e1)) && NextBlock(s, e1 + 3) == Some((p2, e2))
  {
    BlockAt(s, 0, 0, e1);
    BlockAt(s, e1 + 3, p2, e2);
  }

  /** Of two blocks, the later one is taken. */
  lemma ExtractLast(first: string, between: string, last: string)
    requires '`' !in first && '`' !in between && '`' !in last
    ensures ExtractSqlCode(SqlOpen + first + Fence + between + SqlOpen + last + Fence) == Some(Strip(last))
  {
    var s := SqlOpen + first + Fence + between + SqlOpen + last + Fence;
    var e1 := 6 + |first|;
    var p2 := e1 + 3 + |between|;
    var e2 := p2 + 6 + |last|;
    assert s[0..6] == SqlOpen && s[6..e1] == first && s[e1..e1 + 3] == Fence;
    assert s[p2..p2 + 6] == SqlOpen && s[p2 + 6..e2] == last && s[e2..e2 + 3] == Fence;
    forall j | 6 <= j < e1 || e1 + 3 <= j < p2 || p2 + 6 <= j < e2 ensures s[j] != '`' {
      if j < e1 {
        assert s[j] == first[j - 6];
      } else if j < p2 {
        assert s[j] == between[j - e1 - 3];
      } else {
        assert s[j] == last[j - p2 - 6];
      }
    }
    TwoBlocksAt(s, e1, p2, e2);
    TwoBlocks(s, e1, p2, e2);
  }

  /** A reply of SQL blocks: each part is the text before a block and the
      block's body; `tail` follows the last block. */
  function BlockText(parts: seq<(string, string)>, tail: string): string {
    if parts == [] then tail
    else parts[0].0 + SqlOpen + parts[0].1 + Fence + BlockText(parts[1..], tail)
  }

  /** The block bodies of the parts, in order. */
  function Bodies(parts: seq<(string, string)>): (r: seq<string>)
    ensures |r| == |parts| && forall i :: 0 <= i < |parts| ==> r[i] == parts[i].1
  {
    if parts == [] then [] else [parts[0].1] + Bodies(parts[1..])
  }

  /** No backtick outside the fences. */
  predicate Tickless(parts: seq<(string, string)>, tail: string) {
    && '`' !in tail
    && forall i :: 0 <= i < |parts| ==> '`' !in parts[i].0 && '`' !in parts[i].1
  }

  lemma NoBlockIn(s: string, from: nat)
    requires forall j :: from <= j < |s| ==> s[j] != '`'
    ensures NextBlock(s, from) == None
  {
    NoTickNoFind(s, SqlOpen, from);
  }

  /** A pattern opening with a backtick is not found where none stands. */
  lemma {:induction false} NoTickNoFind(s: string, pat: string, from: nat)
    requires pat != [] && pat[0] == '`'
    requires forall j :: from <= j < |s| ==> s[j] != '`'
    ensures Find(s, pat, from) == None
    decreases |s| - from
  {
    if from + |pat| <= |s| {
      assert s[from..from + |pat|][0] == s[from];
      NoTickNoFind(s, pat, from + 1);
    }
  }

  /** Where the pieces of one block of a reply stand in the text. */
  lemma BlockTextSlices(s: string, from: nat, b: string, body: string, rest: string)
    requires from <= |s| && s[from..] == b + SqlOpen + body + Fence + rest
    ensures var p, e := from + |b|, from + |b| + 6 + |body|;
      && e + 3 <= |s| && StartsAt(s, p, SqlOpen) && s[p + 6..e] == body && StartsAt(s, e, Fence) && s[e + 3..] == rest
      && (forall j :: from <= j < p ==> s[j] == b[j - from])
      && (forall j :: p + 6 <= j < e ==> s[j] == body[j - p - 6])
  {
    var t := s[from..];
    var p, e := from + |b|, from + |b| + 6 + |body|;
    assert t[|b|..|b| + 6] == SqlOpen && t[|b| + 6..|b| + 6 + |body|] == body;
    assert t[|b| + 6 + |body|..|b| + 9 + |body|] == Fence && t[|b| + 9 + |body|..] == rest;
    assert s[p..p + 6] == t[|b|..|b| + 6];
    assert s[e..e + 3] == t[|b| + 6 + |body|..|b| + 9 + |body|];
    assert s[p + 6..e] == t[|b| + 6..|b| + 6 + |body|];
    assert s[e + 3..] == t[|b| + 9 + |body|..];
    forall j | from <= j < p ensures s[j] == b[j - from] {
      assert s[j] == t[j - from];
    }
    forall j | p + 6 <= j < e ensures s[j] == body[j - p - 6] {
      assert s[j] == s[p + 6..e][j - p - 6];
    }
  }

  /** One block of a reply, from `from`: it is the next block the search
      finds, and the search goes on after its closing fence. */
  lemma BlockTextStep(s: string, from: nat, b: string, body: string, rest: string)
    requires from <= |s| && s[from..] == b + SqlOpen + body + Fence + rest
    requires '`' !in b && '`' !in body
    ensures var p, e := from + |b|, from + |b| + 6 + |body|;
      && NextBlock(s, from) == Some((p, e)) && s[p + 6..e] == body && s[e + 3..] == rest
  {
    var p, e := from + |b|, from + |b| + 6 + |body|;
    BlockTextSlices(s, from, b, body, rest);
    forall j | from <= j < p ensures s[j] != '`' {
      assert s[j] == b[j - from];
    }
    forall j | p + 6 <= j < e ensures s[j] != '`' {
      assert s[j] == body[j - p - 6];
    }
    BlockAt(s, from, p, e);
  }

  lemma TicklessRest(parts: seq<(string, string)>, tail: string)
    requires parts != [] && Tickless(parts, tail)
    ensures '`' !in parts[0].0 && '`' !in parts[0].1 && Tickless(parts[1..], tail)
  {
    forall i | 0 <= i < |parts[1..]| ensures '`' !in parts[1..][i].0 && '`' !in parts[1..][i].1 {
      assert parts[1..][i] == parts[i + 1];
    }
  }

  lemma TailNoBlock(s: string, from: nat, tail: string)
    requires from <= |s| && s[from..] == tail && '`' !in tail
    ensures SqlBlocks(s, from) == []
  {
    forall j | from <= j < |s| ensures s[j] != '`' {
      assert s[j] == s[from..][j - from];
    }
    NoBlockIn(s, from);
  }

  /** The search finds exactly the blocks a reply was made of, in order. */
  lemma {:induction false} BlocksOfText(s: string, from: nat, parts: seq<(string, string)>, tail: string)
    requires from <= |s| && s[from..] == BlockText(parts, tail) && Tickless(parts, tail)
    ensures SqlBlocks(s, from) == Bodies(parts)
    decreases parts
  {
    if parts == [] {
      TailNoBlock(s, from, tail);
    } else {
      var b, body, rest := parts[0].0, parts[0].1, BlockText(parts[1..], tail);
      var p, e := from + |b|, from + |b| + 6 + |body|;
      assert s[from..] == b + SqlOpen + body + Fence + rest;
      TicklessRest(parts, tail);
      BlockTextStep(s, from, b, body, rest);
      BlocksStep(s, from, p, e);
      BlocksOfText(s, e + 3, parts[1..], tail);
    }
  }

  /** Whatever blocks come before it, the last block of a reply is the
      one taken, stripped; a reply of no block gives no SQL. */
  lemma ExtractBlocks(parts: seq<(string, string)>, tail: string)
    requires Tickless(parts, tail)
    ensures ExtractSqlCode(BlockText(parts, tail)) == if parts == [] then None else Some(Strip(parts[|parts| - 1].1))
  {
    BlocksOfText(BlockText(parts, tail), 0, parts, tail);
  }

  // ----- get_table_mess_snow, get_table_mess_bigquery -----

  /** "<prefix>.<key>" for each table of one schema whose column list is
      not empty, in file order (the metadata keys are not tables here). */
  function NonEmptyTables(prefix: string, tables: Dict<string, seq<ColumnEntry>>): seq<string> {
    if tables == [] then []
    else
      var last := tables[|tables| - 1];
      NonEmptyTables(prefix, tables[..|tables| - 1]) + (if last.1 == [] then [] else [prefix + "." + last.0])
  }

  /** The non-empty tables of every schema that is an object. */
  function SchemaTables(prefix: string, schemas: Dict<string, Content>): seq<string> {
    if schemas == [] then []
    else
      SchemaTables(prefix, schemas[..|schemas| - 1]) +
      (match schemas[|schemas| - 1].1
       case Schema(tables, _, _) => NonEmptyTables(prefix, tables)
       case NotAnObject => [])
  }

  /** `n` names a non-empty table of schema content `c`. */
  predicate Lists(c: Content, prefix: string, n: string) {
    c.Schema? && exists j :: 0 <= j < |c.tables| && c.tables[j].1 != [] && n == prefix + "." + c.tables[j].0
  }

  predicate HasNonSchema(schemas: Dict<string, Content>) {
    exists i :: 0 <= i < |schemas| && schemas[i].1.NotAnObject?
  }

  /** get_table_mess_snow: "<db>.<table key>" for every non-empty table;
      no file or an unparsable one gives no tables, a schema that is not an
      object raises. */
  function GetTableMessSnow(dbName: string, file: Loaded<Dict<string, Content>>): Result<seq<string>, RenderError> {
    match file
    case Parsed(all) =>
      if HasNonSchema(all) then Failure(NotAnObjectError) else Success(SchemaTables(dbName, all))
    case _ => Success([])
  }

  /** get_table_mess_bigquery: the file must hold exactly one project;
      "<project>.<table key>" for every non-empty table of every dataset
      that is an object. */
  function GetTableMessBigquery(file: Loaded<Dict<string, Project>>): Result<seq<string>, RenderError> {
    match file
    case Parsed(all) =>
      if |all| != 1 then Success([])
      else (match all[0].1
            case Project(ds) => Success(SchemaTables(all[0].0, ds))
            case NotAProject(_) => Failure(NotAnObjectError))
    case _ => Success([])
  }

  lemma {:induction false} NonEmptyTablesMembers(prefix: string, tables: Dict<string, seq<ColumnEntry>>, n: string)
    ensures n in NonEmptyTables(prefix, tables) <==>
      exists j :: 0 <= j < |tables| && tables[j].1 != [] && n == prefix + "." + tables[j].0
  {
    if tables != [] {
      var init := tables[..|tables| - 1];
      NonEmptyTablesMembers(prefix, init, n);
      if exists j :: 0 <= j < |tables| && tables[j].1 != [] && n == prefix + "." + tables[j].0 {
        var j :| 0 <= j < |tables| && tables[j].1 != [] && n == prefix + "." + tables[j].0;
        if j < |init| { assert init[j] == tables[j]; }
      }
    }
  }

  lemma {:induction false} SchemaTablesMembers(prefix: string, schemas: Dict<string, Content>, n: string)
    ensures n in SchemaTables(prefix, schemas) <==> exists i :: 0 <= i < |schemas| && Lists(schemas[i].1, prefix, n)
  {
    if schemas != [] {
      var init := schemas[..|schemas| - 1];
      var last := schemas[|schemas| - 1].1;
      SchemaTablesMembers(prefix, init, n);
      if last.Schema? {
        NonEmptyTablesMembers(prefix, last.tables, n);
      }
      if exists i :: 0 <= i < |schemas| && Lists(schemas[i].1, prefix, n) {
        var i :| 0 <= i < |schemas| && Lists(schemas[i].1, prefix, n);
        if i < |init| { assert init[i] == schemas[i]; }
      }
    }
  }

  /** The Snowflake table list: exactly the non-empty tables, each named
      after the database, and an error exactly when a schema is not an
      object. */
  lemma SnowTablesFacts(dbName: string, all: Dict<string, Content>, n: string)
    ensures GetTableMessSnow(dbName, Parsed(all)).Failure? <==> HasNonSchema(all)
    ensures GetTableMessSnow(dbName, Parsed(all)).Success? ==>
      (n in GetTableMessSnow(dbName, Parsed(all)).value <==> exists i :: 0 <= i < |all| && Lists(all[i].1, dbName, n))
  {
    SchemaTablesMembers(dbName, all, n);
  }

  /** The BigQuery table list is empty unless the file holds one project,
      and then holds exactly the non-empty tables of its datasets. */
  lemma BigqueryTablesFacts(all: Dict<string, Project>, n: string)
    ensures |all| != 1 ==> GetTableMessBigquery(Parsed(all)) == Success([])
    ensures |all| == 1 && all[0].1.Project? ==>
      (n in GetTableMessBigquery(Parsed(all)).value <==>
       exists i :: 0 <= i < |all[0].1.datasets| && Lists(all[0].1.datasets[i].1, all[0].0, n))
    ensures |all| == 1 && all[0].1.NotAProject? ==> GetTableMessBigquery(Parsed(all)).Failure?
  {
    if |all| == 1 && all[0].1.Project? {
      SchemaTablesMembers(all[0].0, all[0].1.datasets, n);
    }
  }

  /** The inner loop of the two warehouse enumerators. */
  method AppendNonEmpty(prefix: string, tables: Dict<string, seq<ColumnEntry>>, acc: seq<string>) returns (out: seq<string>)
    ensures out == acc + NonEmptyTables(prefix, tables)
  {
    out := acc;
    var j := 0;
    while j < |tables|
      invariant 0 <= j <= |tables|
      invariant out == acc + NonEmptyTables(prefix, tables[..j])
    {
      assert tables[..j + 1][..j] == tables[..j];
      if tables[j].1 != [] {
        out := out + [prefix + "." + tables[j].0];
      }
      j := j + 1;
    }
    assert tables[..j] == tables;
  }

  /** The schema walk shared by both warehouse enumerators; with
      `skipNonSchema` false a schema that is not an object stops it. */
  method WalkSchemas(prefix: string, schemas: Dict<string, Content>, skipNonSchema: bool)
    returns (r: Result<seq<string>, RenderError>)
    ensures !skipNonSchema && HasNonSchema(schemas) ==> r == Failure(NotAnObjectError)
    ensures skipNonSchema || !HasNonSchema(schemas) ==> r == Success(SchemaTables(prefix, schemas))
  {
    var names: seq<string> := [];
    var i := 0;
    while i < |schemas|
      invariant 0 <= i <= |schemas|
      invariant names == SchemaTables(prefix, schemas[..i])
      invariant !skipNonSchema ==> forall k :: 0 <= k < i ==> schemas[k].1.Schema?
    {
      assert schemas[..i + 1][..i] == schemas[..i];
      match schemas[i].1 {
        case Schema(tables, _, _) =>
          names := AppendNonEmpty(prefix, tables, names);
        case NotAnObject =>
          if !skipNonSchema {
            return Failure(NotAnObjectError);
          }
      }
      i := i + 1;
    }
    assert schemas[..i] == schemas;
    r := Success(names);
  }

  method TableMessSnow(dbName: string, file: Loaded<Dict<string, Content>>) returns (r: Result<seq<string>, RenderError>)
    ensures r == GetTableMessSnow(dbName, file)
  {
    match file
    case Parsed(all) =>
      r := WalkSchemas(dbName, all, false);
    case _ =>
      r := Success([]);
  }

  method TableMessBigquery(file: Loaded<Dict<string, Project>>) returns (r: Result<seq<string>, RenderError>)
    ensures r == GetTableMessBigquery(file)
  {
    match file
    case Parsed(all) =>
      if |all| != 1 {
        return Success([]);
      }
      match all[0].1 {
        case Project(ds) =>
          r := WalkSchemas(all[0].0, ds, true);
        case NotAProject(_) =>
          r := Failure(NotAnObjectError);
      }
    case _ =>
      r := Success([]);
  }

  // ----- get_table_sqlite, get_table_mysql -----

  type Tables = Dict<string, seq<RelationalSchema.Column>>

  const SqliteSkip: seq<string> := ["foreign_keys"]
  const MySqlSkip: seq<string> := ["foreign_keys", "table_Information", "table_description_summary"]

  /** The first database whose key is not skipped. */
  function FirstDatabase(dbs: Dict<string, Tables>, skip: seq<string>): Option<Tables> {
    if dbs == [] then None
    else if dbs[0].0 !in skip then Some(dbs[0].1)
    else FirstDatabase(dbs[1..], skip)
  }

  /** FirstDatabase finds a database exactly when one is not skipped, and
      then the first such. */
  lemma {:induction false} FirstDatabaseFacts(dbs: Dict<string, Tables>, skip: seq<string>)
    ensures FirstDatabase(dbs, skip).Some? <==> exists i :: 0 <= i < |dbs| && dbs[i].0 !in skip
    ensures FirstDatabase(dbs, skip).Some? ==>
      exists i :: 0 <= i < |dbs| && dbs[i].0 !in skip && dbs[i].1 == FirstDatabase(dbs, skip).value &&
        forall k :: 0 <= k < i ==> dbs[k].0 in skip
  {
    if dbs != [] && dbs[0].0 in skip {
      var tail := dbs[1..];
      FirstDatabaseFacts(tail, skip);
      assert forall i :: 1 <= i < |dbs| ==> dbs[i] == tail[i - 1];
      if FirstDatabase(tail, skip).Some? {
        var i :| 0 <= i < |tail| && tail[i].0 !in skip && tail[i].1 == FirstDatabase(tail, skip).value &&
          forall k :: 0 <= k < i ==> tail[k].0 in skip;
        assert dbs[i + 1] == tail[i];
      }
    }
  }

  /** The tables of the named database, else of the first database not
      skipped; none when there is neither. */
  function DatabaseContent(dbName: string, dbs: Dict<string, Tables>, skip: seq<string>): Tables {
    match Get(dbs, dbName)
    case Some(t) => t
    case None =>
      match FirstDatabase(dbs, skip)
      case Some(t) => t
      case None => []
  }

  /** The keys of the tables with columns, the skipped keys left out. */
  function ListedTables(content: Tables, skip: seq<string>): seq<string> {
    if content == [] then []
    else
      var last := content[|content| - 1];
      ListedTables(content[..|content| - 1], skip) + (if last.0 in skip || last.1 == [] then [] else [last.0])
  }

  /** The table list of a SQLite (`skip` SqliteSkip) or MySQL/Doris (`skip`
      MySqlSkip) database; no file or an unparsable one gives none. */
  function RelationalTables(dbName: string, file: Loaded<RelationalSchema.SchemaFile>, skip: seq<string>): seq<string> {
    match file
    case Parsed(f) => ListedTables(DatabaseContent(dbName, f.databases, skip), skip)
    case _ => []
  }

  /** get_table_sqlite */
  function GetTableSqlite(dbName: string, file: Loaded<RelationalSchema.SchemaFile>): seq<string> {
    RelationalTables(dbName, file, SqliteSkip)
  }

  /** get_table_mysql */
  function GetTableMySql(dbName: string, file: Loaded<RelationalSchema.SchemaFile>): seq<string> {
    RelationalTables(dbName, file, MySqlSkip)
  }

  /** The listed tables keep the stored order. */
  lemma {:induction false} ListedTablesSublist(content: Tables, skip: seq<string>)
    ensures Sublist(ListedTables(content, skip), Keys(content))
  {
    if content != [] {
      var init := content[..|content| - 1];
      var last := content[|content| - 1];
      var r := ListedTables(content, skip);
      var ks := Keys(content);
      ListedTablesSublist(init, skip);
      assert ks[..|ks| - 1] == Keys(init);
      if !(last.0 in skip || last.1 == []) {
        assert r == ListedTables(init, skip) + [last.0];
        assert r[..|r| - 1] == ListedTables(init, skip);
        assert r[|r| - 1] == ks[|ks| - 1];
      } else {
        assert r == ListedTables(init, skip);
      }
    }
  }

  /** The listed tables are exactly the stored tables with columns whose
      names are not skipped. */
  lemma {:induction false} ListedTablesMembers(content: Tables, skip: seq<string>, n: string)
    ensures n in ListedTables(content, skip) <==>
      n !in skip && exists j :: 0 <= j < |content| && content[j].0 == n && content[j].1 != []
  {
    if content != [] {
      var init := content[..|content| - 1];
      ListedTablesMembers(init, skip, n);
      if n !in skip && exists j :: 0 <= j < |content| && content[j].0 == n && content[j].1 != [] {
        var j :| 0 <= j < |content| && content[j].0 == n && content[j].1 != [];
        if j < |init| { assert init[j] == content[j]; }
      }
    }
  }

  /** The named database is read when it is there; otherwise the first
      database not skipped. */
  lemma DatabaseChoice(dbName: string, dbs: Dict<string, Tables>, skip: seq<string>)
    ensures dbName in Keys(dbs) ==> exists i :: 0 <= i < |dbs| && dbs[i] == (dbName, DatabaseContent(dbName, dbs, skip))
    ensures dbName !in Keys(dbs) && DatabaseContent(dbName, dbs, skip) != [] ==>
      exists i :: 0 <= i < |dbs| && dbs[i].0 !in skip && dbs[i].1 == DatabaseContent(dbName, dbs, skip) &&
        forall k :: 0 <= k < i ==> dbs[k].0 in skip
  {
    FirstDatabaseFacts(dbs, skip);
  }

  /** The loop over one database's tables. */
  method ListTables(content: Tables, skip: seq<string>) returns (names: seq<string>)
    ensures names == ListedTables(content, skip)
  {
    names := [];
    var j := 0;
    while j < |content|
      invariant 0 <= j <= |content|
      invariant names == ListedTables(content[..j], skip)
    {
      assert content[..j + 1][..j] == content[..j];
      if !(content[j].0 in skip || content[j].1 == []) {
        names := names + [content[j].0];
      }
      j := j + 1;
    }
    assert content[..j] == content;
  }

  /** get_table_sqlite and get_table_mysql: pick the database layer, then
      list its tables. */
  method TableNames(dbName: string, file: Loaded<RelationalSchema.SchemaFile>, skip: seq<string>) returns (names: seq<string>)
    ensures names == RelationalTables(dbName, file, skip)
  {
    if !file.Parsed? {
      return [];
    }
    var dbs := file.data.databases;
    var content: Tables := [];
    FirstDatabaseFacts(dbs, skip);
    var found := Get(dbs, dbName);
    if found.Some? {
      content := found.value;
    } else {
      var i := 0;
      while i < |dbs|
        invariant 0 <= i <= |dbs|
        invariant forall k :: 0 <= k < i ==> dbs[k].0 in skip
      {
        if dbs[i].0 !in skip {
          content := dbs[i].1;
          break;
        }
        i := i + 1;
      }
    }
    names := ListTables(content, skip);
  }

  // ----- merge_table_schemas -----

  /** A table map as the SQL analysis returns it: table name to columns. */
  type TableMap = Dict<string, seq<string>>
  type Entry = (string, seq<string>)

  const ForeignKeys: string := "foreign_keys"

  predicate NoDup(s: seq<string>) {
    forall i, j :: 0 <= i < j < |s| ==> s[i] != s[j]
  }

  /** `set.update`: the elements of `ys` not yet present, appended in
      order, so a set stays a list without repeats. */
  function AddNew(xs: seq<string>, ys: seq<string>): seq<string> {
    if ys == [] then xs
    else
      var r := AddNew(xs, ys[..|ys| - 1]);
      if ys[|ys| - 1] in r then r else r + [ys[|ys| - 1]]
  }

  lemma {:induction false} AddNewFacts(xs: seq<string>, ys: seq<string>)
    ensures forall x :: x in AddNew(xs, ys) <==> x in xs || x in ys
    ensures NoDup(xs) ==> NoDup(AddNew(xs, ys))
  {
    if ys != [] {
      var init := ys[..|ys| - 1];
      AddNewFacts(xs, init);
      assert ys == init + [ys[|ys| - 1]];
    }
  }

  /** One table entry of one sampled map merged in; the foreign-key entry
      is dropped. */
  function Absorb(acc: TableMap, e: Entry): TableMap {
    if e.0 == ForeignKeys then acc else Put(acc, e.0, AddNew(GetOr(acc, e.0, []), e.1))
  }

  function Fold(acc: TableMap, es: seq<Entry>): TableMap {
    if es == [] then acc else Absorb(Fold(acc, es[..|es| - 1]), es[|es| - 1])
  }

  /** The entries of all maps, map after map. */
  function Flatten(maps: seq<TableMap>): seq<Entry> {
    if maps == [] then [] else Flatten(maps[..|maps| - 1]) + maps[|maps| - 1]
  }

  /** Each table with the union of its columns, as a list without repeats,
      tables in order of first appearance. */
  function Unions(maps: seq<TableMap>): TableMap {
    Fold([], Flatten(maps))
  }

  function SortValues(u: TableMap): (r: TableMap)
    ensures |r| == |u| && Keys(r) == Keys(u)
  {
    seq(|u|, i requires 0 <= i < |u| => (u[i].0, Sort(u[i].1)))
  }

  /** merge_table_schemas: the unions with their columns sorted. */
  function MergeTableSchemas(maps: seq<TableMap>): TableMap {
    SortValues(Unions(maps))
  }

  predicate Named(es: seq<Entry>, k: string) {
    exists e :: e in es && e.0 == k
  }

  predicate Gives(es: seq<Entry>, k: string, x: string) {
    exists e :: e in es && e.0 == k && x in e.1
  }

  /** `m` is the merge of the entries `es`. */
  ghost predicate Merges(m: TableMap, es: seq<Entry>) {
    && DistinctKeys(m)
    && (forall k :: k in Keys(m) <==> k != ForeignKeys && Named(es, k))
    && (forall k :: Get(m, k).Some? ==> NoDup(Get(m, k).value))
    && (forall k, x :: Get(m, k).Some? ==> (x in Get(m, k).value <==> Gives(es, k, x)))
  }

  lemma AbsorbStep(m: TableMap, es: seq<Entry>, e: Entry)
    requires Merges(m, es)
    ensures Merges(Absorb(m, e), es + [e])
  {
    var es' := es + [e];
    forall k ensures Named(es', k) <==> Named(es, k) || k == e.0 {
      if Named(es', k) {
        var f :| f in es' && f.0 == k;
      }
    }
    forall k, x ensures Gives(es', k, x) <==> Gives(es, k, x) || (k == e.0 && x in e.1) {
      if Gives(es', k, x) {
        var f :| f in es' && f.0 == k && x in f.1;
      }
    }
    if e.0 != ForeignKeys {
      var old_ := GetOr(m, e.0, []);
      AddNewFacts(old_, e.1);
      PutKeepsDistinct(m, e.0, AddNew(old_, e.1));
    }
  }

  lemma {:induction false} FoldMerges(es: seq<Entry>)
    ensures Merges(Fold([], es), es)
  {
    if es != [] {
      var init := es[..|es| - 1];
      var e := es[|es| - 1];
      var m := Fold([], init);
      assert Fold([], es) == Absorb(m, e);
      assert init + [e] == es;
      FoldMerges(init);
      AbsorbStep(m, init, e);
    }
  }

  lemma {:induction false} FlattenMembers(maps: seq<TableMap>, e: Entry)
    ensures e in Flatten(maps) <==> exists j :: 0 <= j < |maps| && e in maps[j]
  {
    if maps != [] {
      var init := maps[..|maps| - 1];
      FlattenMembers(init, e);
      if exists j :: 0 <= j < |maps| && e in maps[j] {
        var j :| 0 <= j < |maps| && e in maps[j];
        if j < |init| { assert init[j] == maps[j]; }
      }
    }
  }

  /** Two copies of an element in a list without repeats cannot be. */
  lemma {:induction false} NoDupCount(s: seq<string>, x: string)
    requires NoDup(s)
    ensures multiset(s)[x] <= 1
  {
    if s != [] {
      var init := s[..|s| - 1];
      NoDupCount(init, x);
      assert s == init + [s[|s| - 1]];
      if x == s[|s| - 1] {
        assert x !in init;
      }
    }
  }

  lemma Repeated(s: seq<string>, i: nat, j: nat)
    requires i < j < |s| && s[i] == s[j]
    ensures multiset(s)[s[i]] >= 2
  {
    assert s == s[..j] + [s[j]] + s[j + 1..];
    assert s[i] in s[..j];
  }

  /** Sorting a list without repeats gives a strictly sorted one with the
      same elements: `sorted(list(a_set))`. */
  lemma SortNoDup(s: seq<string>)
    requires NoDup(s)
    ensures StrictlySorted(Sort(s))
    ensures forall x :: x in Sort(s) <==> x in s
  {
    var t := Sort(s);
    SortFacts(s);
    forall i, j | 0 <= i < j < |t| ensures t[i] != t[j] {
      if t[i] == t[j] {
        Repeated(t, i, j);
        NoDupCount(s, t[i]);
        assert false;
      }
    }
    forall x ensures x in t <==> x in s {
      assert x in t <==> x in multiset(t);
    }
  }

  /** The merged map names each table of the samples once, never the
      foreign-key entry, and gives each the sorted union of its columns. */
  lemma MergeTableSchemasFacts(maps: seq<TableMap>)
    ensures DistinctKeys(MergeTableSchemas(maps))
    ensures forall k :: k in Keys(MergeTableSchemas(maps)) <==>
      k != ForeignKeys && exists j :: 0 <= j < |maps| && Named(maps[j], k)
    ensures forall i :: 0 <= i < |MergeTableSchemas(maps)| ==> StrictlySorted(MergeTableSchemas(maps)[i].1)
    ensures forall i, x :: 0 <= i < |MergeTableSchemas(maps)| ==>
      (x in MergeTableSchemas(maps)[i].1 <==> exists j :: 0 <= j < |maps| && Gives(maps[j], MergeTableSchemas(maps)[i].0, x))
  {
    var es := Flatten(maps);
    var u := Unions(maps);
    var r := MergeTableSchemas(maps);
    FoldMerges(es);
    forall k ensures Named(es, k) <==> exists j :: 0 <= j < |maps| && Named(maps[j], k) {
      if Named(es, k) {
        var e :| e in es && e.0 == k;
        FlattenMembers(maps, e);
      }
      if exists j :: 0 <= j < |maps| && Named(maps[j], k) {
        var j :| 0 <= j < |maps| && Named(maps[j], k);
        var e :| e in maps[j] && e.0 == k;
        FlattenMembers(maps, e);
      }
    }
    forall i | 0 <= i < |r|
      ensures StrictlySorted(r[i].1)
      ensures forall x :: x in r[i].1 <==> exists j :: 0 <= j < |maps| && Gives(maps[j], r[i].0, x)
    {
      GetDistinct(u, i);
      SortNoDup(u[i].1);
      forall x ensures Gives(es, u[i].0, x) <==> exists j :: 0 <= j < |maps| && Gives(maps[j], u[i].0, x) {
        if Gives(es, u[i].0, x) {
          var e :| e in es && e.0 == u[i].0 && x in e.1;
          FlattenMembers(maps, e);
        }
        if exists j :: 0 <= j < |maps| && Gives(maps[j], u[i].0, x) {
          var j :| 0 <= j < |maps| && Gives(maps[j], u[i].0, x);
          var e :| e in maps[j] && e.0 == u[i].0 && x in e.1;
          FlattenMembers(maps, e);
        }
      }
    }
  }

  /** A single sample of one table comes back with its columns sorted. */
  lemma MergeSingle(t: string, cols: seq<string>)
    requires t != ForeignKeys && NoDup(cols)
    ensures MergeTableSchemas([[(t, cols)]]) == [(t, Sort(cols))]
  {
    var maps := [[(t, cols)]];
    assert maps[..0] == [];
    assert Flatten(maps) == [(t, cols)];
    assert [(t, cols)][..0] == [];
    AddNewOfNoDup(cols);
    assert Fold([], [(t, cols)]) == Absorb([], (t, cols)) == [(t, cols)];
    assert Unions(maps) == [(t, cols)];
  }

  lemma {:induction false} AddNewOfNoDup(ys: seq<string>)
    requires NoDup(ys)
    ensures AddNew([], ys) == ys
  {
    if ys != [] {
      var init := ys[..|ys| - 1];
      var last := ys[|ys| - 1];
      assert NoDup(init);
      assert last !in init;
      AddNewOfNoDup(init);
      assert ys == init + [last];
    }
  }

  lemma FoldSnoc(acc: TableMap, es: seq<Entry>, e: Entry)
    ensures Fold(acc, es + [e]) == Absorb(Fold(acc, es), e)
  {
    assert (es + [e])[..|es|] == es;
  }

  lemma {:induction false} FoldConcat(acc: TableMap, a: seq<Entry>, b: seq<Entry>)
    ensures Fold(acc, a + b) == Fold(Fold(acc, a), b)
  {
    if b == [] {
      assert a + b == a;
    } else {
      var init := b[..|b| - 1];
      FoldConcat(acc, a, init);
      assert a + b == (a + init) + [b[|b| - 1]];
      FoldSnoc(acc, a + init, b[|b| - 1]);
    }
  }

  /** The inner loop of merge_table_schemas over one sampled map. */
  method MergeMap(acc: TableMap, d: TableMap) returns (out: TableMap)
    ensures out == Fold(acc, d)
  {
    out := acc;
    var j := 0;
    while j < |d|
      invariant 0 <= j <= |d|
      invariant out == Fold(acc, d[..j])
    {
      FoldSnoc(acc, d[..j], d[j]);
      assert d[..j] + [d[j]] == d[..j + 1];
      var (table, fields) := d[j];
      if table != ForeignKeys {
        out := Put(out, table, AddNew(GetOr(out, table, []), fields));
      }
      j := j + 1;
    }
    assert d[..j] == d;
  }

  /** merge_table_schemas: fold every map into per-table column sets, then
      sort each set. */
  method MergeTables(maps: seq<TableMap>) returns (merged: TableMap)
    ensures merged == MergeTableSchemas(maps)
  {
    var acc: TableMap := [];
    var i := 0;
    while i < |maps|
      invariant 0 <= i <= |maps|
      invariant acc == Fold([], Flatten(maps[..i]))
    {
      assert maps[..i + 1][..i] == maps[..i];
      FoldConcat([], Flatten(maps[..i]), maps[i]);
      acc := MergeMap(acc, maps[i]);
      i := i + 1;
    }
    assert maps[..i] == maps;
    merged := [];
    var k := 0;
    while k < |acc|
      invariant 0 <= k <= |acc|
      invariant merged == SortValues(acc[..k])
    {
      assert SortValues(acc[..k + 1]) == SortValues(acc[..k]) + [(acc[k].0, Sort(acc[k].1))];
      merged := merged + [(acc[k].0, Sort(acc[k].1))];
      k := k + 1;
    }
    assert acc[..k] == acc;
  }

  // ----- SL_workflow_old, SL_workflow_min, SL_workflow -----

  /** One call of the model followed by the analysis of the SQL it wrote:
      the table map obtained, or None when either step raised. */
  type Reply = Option<TableMap>

  /** The successful samples by round number. */
  type History = Dict<nat, TableMap>

  /** The `k`-th call; calls past the supplied replies raise. */
  function Call(replies: seq<Reply>, k: nat): Reply {
    if k < |replies| then replies[k] else None
  }

  /** The end of one round of retries: the reply obtained, if any, and how
      many calls it took. */
  datatype Attempted = Attempted(reply: Reply, calls: nat)

  /** One round starting at call `k`: calls until one does not raise, at
      most `maxRetries` of them. */
  function Round(replies: seq<Reply>, k: nat, maxRetries: nat): (r: Attempted)
    ensures r.calls <= maxRetries
    ensures r.reply.Some? ==> 1 <= r.calls && Call(replies, k + r.calls - 1) == r.reply
    ensures r.reply.None? ==> r.calls == maxRetries
    ensures forall j :: k <= j < k + r.calls - 1 ==> Call(replies, j).None?
    ensures r.reply.None? ==> forall j :: k <= j < k + r.calls ==> Call(replies, j).None?
    decreases maxRetries
  {
    if maxRetries == 0 then Attempted(None, 0)
    else if Call(replies, k).Some? then Attempted(Call(replies, k), 1)
    else
      var r := Round(replies, k + 1, maxRetries - 1);
      Attempted(r.reply, r.calls + 1)
  }

  /** The result of `rounds` rounds: the history of the successful ones and
      the number of calls made. */
  datatype Sampled = Sampled(history: History, calls: nat)

  function Sampling(replies: seq<Reply>, maxRetries: nat, rounds: nat): Sampled {
    if rounds == 0 then Sampled([], 0)
    else
      var before := Sampling(replies, maxRetries, rounds - 1);
      var r := Round(replies, before.calls, maxRetries);
      Sampled(if r.reply.Some? then before.history + [(rounds - 1, r.reply.value)] else before.history,
              before.calls + r.calls)
  }

  /** The history holds at most one sample per round, in round order, and
      no round makes more than `maxRetries` calls. */
  lemma {:induction false} SamplingBounds(replies: seq<Reply>, maxRetries: nat, rounds: nat)
    ensures Sampling(replies, maxRetries, rounds).calls <= rounds * maxRetries
    ensures |Sampling(replies, maxRetries, rounds).history| <= rounds
    ensures forall i :: 0 <= i < |Sampling(replies, maxRetries, rounds).history| ==>
      Sampling(replies, maxRetries, rounds).history[i].0 < rounds
    ensures forall i, j :: 0 <= i < j < |Sampling(replies, maxRetries, rounds).history| ==>
      Sampling(replies, maxRetries, rounds).history[i].0 < Sampling(replies, maxRetries, rounds).history[j].0
  {
    if rounds > 0 {
      SamplingBounds(replies, maxRetries, rounds - 1);
      assert (rounds - 1) * maxRetries + maxRetries == rounds * maxRetries;
    }
  }

  /** When no call raises, each round takes one call and every reply is
      kept, round by round. */
  lemma {:induction false} SamplingAllSucceed(replies: seq<Reply>, maxRetries: nat, rounds: nat)
    requires 1 <= maxRetries && rounds <= |replies|
    requires forall k :: 0 <= k < |replies| ==> replies[k].Some?
    ensures Sampling(replies, maxRetries, rounds).calls == rounds
    ensures |Sampling(replies, maxRetries, rounds).history| == rounds
    ensures forall i :: 0 <= i < rounds ==> Sampling(replies, maxRetries, rounds).history[i] == (i, replies[i].value)
  {
    if rounds > 0 {
      var before := Sampling(replies, maxRetries, rounds - 1);
      SamplingAllSucceed(replies, maxRetries, rounds - 1);
      var reply := replies[rounds - 1];
      assert Round(replies, rounds - 1, maxRetries) == Attempted(reply, 1);
      var out := Sampled(before.history + [(rounds - 1, reply.value)], rounds);
      assert Sampling(replies, maxRetries, rounds) == out;
      forall i | 0 <= i < rounds ensures out.history[i] == (i, replies[i].value) {
        if i < rounds - 1 {
          assert out.history[i] == before.history[i];
        }
      }
    }
  }

  /** When every call raises, every round spends all its retries and the
      history stays empty. */
  lemma {:induction false} SamplingAllFail(replies: seq<Reply>, maxRetries: nat, rounds: nat)
    requires forall k :: 0 <= k < |replies| ==> replies[k].None?
    ensures Sampling(replies, maxRetries, rounds) == Sampled([], rounds * maxRetries)
  {
    if rounds > 0 {
      SamplingAllFail(replies, maxRetries, rounds - 1);
      var r := Round(replies, (rounds - 1) * maxRetries, maxRetries);
      assert r.reply.None?;
      assert (rounds - 1) * maxRetries + maxRetries == rounds * maxRetries;
    }
  }

  function Shifted(r: Attempted, n: nat): Attempted {
    Attempted(r.reply, r.calls + n)
  }

  /** The retry loop of one round. */
  method SampleRound(replies: seq<Reply>, k: nat, maxRetries: nat) returns (reply: Reply, calls: nat)
    ensures Attempted(reply, calls) == Round(replies, k, maxRetries)
  {
    var success := false;
    var retryCount := 0;
    reply := None;
    while !success && retryCount < maxRetries
      invariant retryCount <= maxRetries
      invariant !success ==> reply.None?
      invariant !success ==> Round(replies, k, maxRetries) == Shifted(Round(replies, k + retryCount, maxRetries - retryCount), retryCount)
      invariant success ==> Round(replies, k, maxRetries) == Attempted(reply, retryCount + 1)
      decreases maxRetries - retryCount, if success then 0 else 1
    {
      var attempt := Call(replies, k + retryCount);
      if attempt.Some? {
        reply := attempt;
        success := true;
      } else {
        retryCount := retryCount + 1;
      }
    }
    calls := if success then retryCount + 1 else retryCount;
  }

  /** Round `index` run after the earlier ones, its sample recorded. */
  method NextRound(replies: seq<Reply>, maxRetries: nat, index: nat, samples: seq<TableMap>, history: History, calls: nat)
    returns (samples': seq<TableMap>, history': History, calls': nat)
    requires Sampled(history, calls) == Sampling(replies, maxRetries, index)
    requires samples == Values(history)
    ensures Sampled(history', calls') == Sampling(replies, maxRetries, index + 1)
    ensures samples' == Values(history')
  {
    var reply, used := SampleRound(replies, calls, maxRetries);
    samples', history' := samples, history;
    if reply.Some? {
      samples' := samples + [reply.value];
      history' := history + [(index, reply.value)];
    }
    calls' := calls + used;
  }

  /** `rounds` sampling rounds; the samples are kept both in the history
      and, in order, as a list. */
  method SampleRounds(replies: seq<Reply>, maxRetries: nat, rounds: nat)
    returns (samples: seq<TableMap>, history: History, calls: nat)
    ensures Sampled(history, calls) == Sampling(replies, maxRetries, rounds)
    ensures samples == Values(history)
  {
    samples := [];
    history := [];
    calls := 0;
    var index := 0;
    while index < rounds
      invariant 0 <= index <= rounds
      invariant Sampled(history, calls) == Sampling(replies, maxRetries, index)
      invariant samples == Values(history)
    {
      samples, history, calls := NextRound(replies, maxRetries, index, samples, history, calls);
      index := index + 1;
    }
  }

  /** What the prompt shows of the schema: the M-Schema text, the DDL text
      in its stead, or neither, the per-table workflow taking over. */
  datatype Budget = SchemaText | DdlText | PerTable

  /** The M-Schema text is used when within `maxToken`, else the DDL text
      when within `ddlLimit` (`maxToken // 2` in SL_workflow, `maxToken` in
      SL_workflow_min). */
  function ChooseText(schemaTokens: nat, ddlTokens: nat, maxToken: nat, ddlLimit: nat): Budget {
    if schemaTokens <= maxToken then SchemaText
    else if ddlTokens <= ddlLimit then DdlText
    else PerTable
  }

  /** SL_workflow gives up on the whole-schema prompt whenever
      SL_workflow_min does, and falls back on the DDL text only when
      SL_workflow_min would. */
  lemma BudgetOrder(schemaTokens: nat, ddlTokens: nat, maxToken: nat)
    ensures ChooseText(schemaTokens, ddlTokens, maxToken, maxToken) == PerTable ==>
      ChooseText(schemaTokens, ddlTokens, maxToken, maxToken / 2) == PerTable
    ensures ChooseText(schemaTokens, ddlTokens, maxToken, maxToken / 2) == DdlText ==>
      ChooseText(schemaTokens, ddlTokens, maxToken, maxToken) == DdlText
    ensures ChooseText(schemaTokens, ddlTokens, maxToken, maxToken / 2) == SchemaText <==> schemaTokens <= maxToken
  {
  }

  /** The three values a workflow returns: the table list, the table map
      and the sample history. */
  datatype Linking = Linking(tables: seq<string>, schema: TableMap, history: History)

  /** The samples merged and simplified, with the given history. */
  function Linked(samples: seq<TableMap>, history: History): Linking {
    var simplified := SimplifiedTables(MergeTableSchemas(samples));
    Linking(Keys(simplified), simplified, history)
  }

  /** The shortcut for a database of one table. */
  function OneTable(t: string): Linking {
    Linking([t], [(t, [])], [(0, [(t, [])])])
  }

  const SampleCount: nat := 3

  /** SL_workflow_min's `max_token` default, which SL_workflow does not
      override when it hands over. */
  const MinMaxToken: nat := 50000

  /** SL_workflow_old: one round per table, the samples merged and
      simplified, no history. */
  function OldWorkflow(tableList: seq<string>, replies: seq<Reply>, maxRetries: nat): Linking {
    Linked(Values(Sampling(replies, maxRetries, |tableList|).history), [])
  }

  /** SL_workflow_min on a table list, with the token counts of its
      M-Schema and DDL texts. The DDL text is bound only when `ddlBound`
      (db_type snow, bigquery or sqlite); otherwise an M-Schema over budget
      raises when the DDL text is counted, and the result is `None`. The
      per-table fallback enumerates the database's tables itself:
      `dbTables` is that list, which need not be `tableList`. */
  function MinWorkflow(tableList: seq<string>, dbTables: seq<string>, useSingleTable: bool, ddlBound: bool,
                       schemaTokens: nat, ddlTokens: nat, maxToken: nat, replies: seq<Reply>, maxRetries: nat): Option<Linking>
  {
    if |tableList| == 1 && !useSingleTable then Some(OneTable(tableList[0]))
    else if schemaTokens > maxToken && !ddlBound then None
    else if ChooseText(schemaTokens, ddlTokens, maxToken, maxToken) == PerTable then Some(OldWorkflow(dbTables, replies, maxRetries))
    else
      var h := Sampling(replies, maxRetries, SampleCount).history;
      Some(Linked(Values(h), h))
  }

  /** SL_workflow_min fails exactly when it is not the one-table shortcut,
      the M-Schema text is over budget and no DDL text was bound; MySQL and
      Doris, which SL_workflow hands over with `max_token` MinMaxToken, fail
      so whenever their M-Schema text is over MinMaxToken tokens. Otherwise
      it returns the shortcut, or a linking of the samples with at most
      three rounds of history, or the per-table linking with none. */
  lemma MinWorkflowFacts(tableList: seq<string>, dbTables: seq<string>, useSingleTable: bool, ddlBound: bool,
                         schemaTokens: nat, ddlTokens: nat, maxToken: nat, replies: seq<Reply>, maxRetries: nat)
    ensures var out := MinWorkflow(tableList, dbTables, useSingleTable, ddlBound, schemaTokens, ddlTokens, maxToken, replies, maxRetries);
      && (out.None? <==> !(|tableList| == 1 && !useSingleTable) && schemaTokens > maxToken && !ddlBound)
      && (|tableList| == 1 && !useSingleTable ==> out == Some(OneTable(tableList[0])))
      && (out.Some? && !(|tableList| == 1 && !useSingleTable) && (schemaTokens <= maxToken || ddlTokens <= maxToken) ==>
            |out.value.history| <= SampleCount && LinksSamples(out.value, Values(out.value.history)))
      && (out.Some? && schemaTokens > maxToken && ddlTokens > maxToken && !(|tableList| == 1 && !useSingleTable) ==>
            out.value.history == [] && LinksSamples(out.value, Values(Sampling(replies, maxRetries, |dbTables|).history)))
  {
    var h := Sampling(replies, maxRetries, SampleCount).history;
    SamplingBounds(replies, maxRetries, SampleCount);
    LinkedFacts(Values(h), h);
    LinkedFacts(Values(Sampling(replies, maxRetries, |dbTables|).history), []);
  }

  /** SL_workflow_min binds its DDL text for Snowflake, BigQuery and
      SQLite only. */
  predicate MinBindsDdl(t: DbIdent.DbType) {
    t == DbIdent.Snow || t == DbIdent.BigQuery || t == DbIdent.Sqlite
  }

  /** SL_workflow's hand-over to SL_workflow_min (`use_single_table` off,
      `max_token` MinMaxToken) raises for a table list that is not a single
      table exactly when the engine is MySQL or Doris and the M-Schema text
      of the list is over MinMaxToken tokens. */
  lemma HandOverRaises(t: DbIdent.DbType, tableList: seq<string>, dbTables: seq<string>, schemaTokens: nat, ddlTokens: nat,
                       replies: seq<Reply>, maxRetries: nat)
    ensures MinWorkflow(tableList, dbTables, false, MinBindsDdl(t), schemaTokens, ddlTokens, MinMaxToken, replies, maxRetries).None? <==>
      |tableList| != 1 && (t == DbIdent.MySql || t == DbIdent.Doris) && schemaTokens > MinMaxToken
  {
    MinWorkflowFacts(tableList, dbTables, false, MinBindsDdl(t), schemaTokens, ddlTokens, MinMaxToken, replies, maxRetries);
  }

  /** How SL_workflow ends: with its linking, by handing a table list to
      SL_workflow_min (with `use_single_table` off and `max_token`
      MinMaxToken) and returning what that returns, or raising because no
      DDL text was bound. */
  datatype Outcome = Done(linking: Linking) | RefineWith(tables: seq<string>) | Unbound

  /** SL_workflow. Its DDL text is bound when `ddlBound`, that is when
      db_type is one of the five engine names. */
  function Workflow(tableList: seq<string>, dbTables: seq<string>, useSingleTable: bool, ddlBound: bool,
                    schemaTokens: nat, ddlTokens: nat, maxToken: nat, allUseMin: bool, replies: seq<Reply>, maxRetries: nat): Outcome
  {
    if |tableList| == 1 && !useSingleTable then Done(OneTable(tableList[0]))
    else if schemaTokens > maxToken && !ddlBound then Unbound
    else if ChooseText(schemaTokens, ddlTokens, maxToken, maxToken / 2) == PerTable then
      RefineWith(OldWorkflow(dbTables, replies, maxRetries).tables)
    else
      var h := Sampling(replies, maxRetries, SampleCount).history;
      var l := Linked(Values(h), h);
      if allUseMin then RefineWith(l.tables) else Done(l)
  }

  /** A linking built from samples lists the tables of its map, once each,
      each a table some sample names (never the foreign-key entry), of
      pairwise distinct series, each with the sorted columns the samples
      give it. */
  ghost predicate LinksSamples(l: Linking, samples: seq<TableMap>) {
    && l.tables == Keys(l.schema)
    && DistinctKeys(l.schema)
    && (forall i :: 0 <= i < |l.schema| ==> l.schema[i].0 != ForeignKeys)
    && (forall i :: 0 <= i < |l.schema| ==> exists j :: 0 <= j < |samples| && Named(samples[j], l.schema[i].0))
    && (forall i :: 0 <= i < |l.schema| ==> StrictlySorted(l.schema[i].1))
    && (forall i, x :: 0 <= i < |l.schema| ==>
          (x in l.schema[i].1 <==> exists j :: 0 <= j < |samples| && Gives(samples[j], l.schema[i].0, x)))
    && (forall i, j :: 0 <= i < j < |l.schema| ==> SeriesName(Plain, l.schema[i].0) != SeriesName(Plain, l.schema[j].0))
  }

  lemma LinkedFacts(samples: seq<TableMap>, history: History)
    ensures LinksSamples(Linked(samples, history), samples)
    ensures SeriesOf(Plain, Linked(samples, history).tables) == SeriesOf(Plain, Keys(MergeTableSchemas(samples)))
  {
    var merged := MergeTableSchemas(samples);
    var out := SimplifiedTables(merged);
    MergeTableSchemasFacts(samples);
    SimplifiedTablesFacts(merged);
    forall i | 0 <= i < |out|
      ensures exists i' :: 0 <= i' < |merged| && merged[i'] == out[i]
    {
      assert out[i].0 in Keys(out);
    }
    assert DistinctKeys(out) by {
      forall i, j | 0 <= i < j < |out| ensures out[i].0 != out[j].0 {
        assert SeriesName(Plain, out[i].0) != SeriesName(Plain, out[j].0);
      }
    }
  }

  /** What SL_workflow returns: the one-table shortcut (the table with no
      columns, in a history of one round), the sampled linking (with a
      history of at most three rounds), a hand-over to SL_workflow_min,
      after the per-table workflow when the schema does not fit the
      prompt, or the error of an unbound DDL text. */
  lemma WorkflowFacts(tableList: seq<string>, dbTables: seq<string>, useSingleTable: bool, ddlBound: bool,
                      schemaTokens: nat, ddlTokens: nat, maxToken: nat, allUseMin: bool, replies: seq<Reply>, maxRetries: nat)
    ensures var out := Workflow(tableList, dbTables, useSingleTable, ddlBound, schemaTokens, ddlTokens, maxToken, allUseMin, replies, maxRetries);
      && (|tableList| == 1 && !useSingleTable ==>
            out.Done? && out.linking.tables == tableList && out.linking.schema == [(tableList[0], [])] &&
            out.linking.history == [(0, [(tableList[0], [])])])
      && (out.Unbound? <==> !(|tableList| == 1 && !useSingleTable) && schemaTokens > maxToken && !ddlBound)
      && (out.Done? && !(|tableList| == 1 && !useSingleTable) ==>
            !allUseMin && (schemaTokens <= maxToken || ddlTokens <= maxToken / 2))
      && (out.Done? && !(|tableList| == 1 && !useSingleTable) ==>
            |out.linking.history| <= SampleCount && LinksSamples(out.linking, Values(out.linking.history)))
  {
    var h := Sampling(replies, maxRetries, SampleCount).history;
    SamplingBounds(replies, maxRetries, SampleCount);
    LinkedFacts(Values(h), h);
    if |tableList| == 1 {
      assert tableList == [tableList[0]];
    }
  }

  /** SL_workflow_old */
  method SlWorkflowOld(tableList: seq<string>, replies: seq<Reply>, maxRetries: nat) returns (l: Linking)
    ensures l == OldWorkflow(tableList, replies, maxRetries)
    ensures LinksSamples(l, Values(Sampling(replies, maxRetries, |tableList|).history))
  {
    var samples, _, _ := SampleRounds(replies, maxRetries, |tableList|);
    var merged := MergeTables(samples);
    var simplified := SimplifyTableSeries(merged);
    l := Linking(Keys(simplified), simplified, []);
    LinkedFacts(samples, []);
  }

  /** SL_workflow_min */
  method SlWorkflowMin(tableList: seq<string>, dbTables: seq<string>, useSingleTable: bool, ddlBound: bool,
                       schemaTokens: nat, ddlTokens: nat, maxToken: nat, replies: seq<Reply>, maxRetries: nat) returns (l: Option<Linking>)
    ensures l == MinWorkflow(tableList, dbTables, useSingleTable, ddlBound, schemaTokens, ddlTokens, maxToken, replies, maxRetries)
  {
    if |tableList| == 1 && !useSingleTable {
      return Some(OneTable(tableList[0]));
    }
    if schemaTokens > maxToken && !ddlBound {
      return None;
    }
    if schemaTokens > maxToken && ddlTokens > maxToken {
      var perTable := SlWorkflowOld(dbTables, replies, maxRetries);
      return Some(perTable);
    }
    var samples, history, _ := SampleRounds(replies, maxRetries, SampleCount);
    var merged := MergeTables(samples);
    var simplified := SimplifyTableSeries(merged);
    l := Some(Linking(Keys(simplified), simplified, history));
  }

  /** SL_workflow */
  method SlWorkflow(tableList: seq<string>, dbTables: seq<string>, useSingleTable: bool, ddlBound: bool,
                    schemaTokens: nat, ddlTokens: nat, maxToken: nat, allUseMin: bool, replies: seq<Reply>, maxRetries: nat)
    returns (out: Outcome)
    ensures out == Workflow(tableList, dbTables, useSingleTable, ddlBound, schemaTokens, ddlTokens, maxToken, allUseMin, replies, maxRetries)
  {
    if |tableList| == 1 && !useSingleTable {
      return Done(OneTable(tableList[0]));
    }
    if schemaTokens > maxToken && !ddlBound {
      return Unbound;
    }
    if schemaTokens > maxToken && ddlTokens > maxToken / 2 {
      var perTable := SlWorkflowOld(dbTables, replies, maxRetries);
      return RefineWith(perTable.tables);
    }
    var samples, history, _ := SampleRounds(replies, maxRetries, SampleCount);
    var merged := MergeTables(samples);
    var simplified := SimplifyTableSeries(merged);
    if !allUseMin {
      out := Done(Linking(Keys(simplified), simplified, history));
    } else {
      out := RefineWith(Keys(simplified));
    }
  }
}
