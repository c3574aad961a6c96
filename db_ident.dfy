/** Identifying the database behind a task id, pulling the SQL out of a
    fenced ```sql block of a model reply, normalising table names, and the
    retry loop that asks the model to complete an over-long Snowflake
    query (utils/Database_Interface.py). */
module DbIdent {
  import opened Basics
  import opened Text

  datatype DbType = BigQuery | Snow | Sqlite | MySql | Doris {
    /** The name the system uses for the engine. */
    function Tag(): string {
      match this
      case BigQuery => "bigquery"
      case Snow => "snow"
      case Sqlite => "sqlite"
      case MySql => "mysql"
      case Doris => "doris"
    }
  }

  predicate KnownPrefix(l: string) {
    || StartsWith(l, "bq") || StartsWith(l, "ga") || StartsWith(l, "sf")
    || StartsWith(l, "local") || StartsWith(l, "my") || StartsWith(l, "doris")
  }

  /** detect_db_type: the engine follows from the prefix of the lower-cased
      id; an empty id or an unknown prefix fails an assertion. Every tag is
      characterised on its own, so the order of the tests does not matter. */
  function DetectDbType(id: string): (r: Result<DbType, string>)
    ensures r == Success(BigQuery) <==> StartsWith(Lower(id), "bq") || StartsWith(Lower(id), "ga")
    ensures r == Success(Snow) <==> StartsWith(Lower(id), "sf")
    ensures r == Success(Sqlite) <==> StartsWith(Lower(id), "local")
    ensures r == Success(MySql) <==> StartsWith(Lower(id), "my")
    ensures r == Success(Doris) <==> StartsWith(Lower(id), "doris")
    ensures r.Failure? <==> !KnownPrefix(Lower(id))
  {
    var l := Lower(id);
    if id == [] then Failure("instance_id must be a non-empty string")
    else if StartsWith(l, "bq") || StartsWith(l, "ga") then Success(BigQuery)
    else if StartsWith(l, "sf") then Success(Snow)
    else if StartsWith(l, "local") then Success(Sqlite)
    else if StartsWith(l, "mysql") || StartsWith(l, "my") then Success(MySql)
    else if StartsWith(l, "doris") then Success(Doris)
    else Failure("unknown or unsupported database type prefix")
  }

  lemma LowerOfUpper(s: string)
    ensures Lower(Upper(s)) == Lower(s)
  {
  }

  /** The engine does not depend on the case of the id. */
  lemma DetectCaseInsensitive(id: string)
    ensures DetectDbType(Upper(id)) == DetectDbType(id)
    ensures DetectDbType(Lower(id)) == DetectDbType(id)
  {
    LowerOfUpper(id);
    LowerIdempotent(id);
  }

  /** Only the prefix counts: whatever follows a recognised id keeps its
      engine. */
  lemma DetectPrefixStable(id: string, suffix: string)
    requires DetectDbType(id).Success?
    ensures DetectDbType(id + suffix) == DetectDbType(id)
  {
    LowerConcat(id, suffix);
    var l := Lower(id);
    var l' := Lower(id + suffix);
    assert forall n :: 0 <= n <= |l| ==> l'[..n] == l[..n];
  }

  // ----- extract_sql_block: the regex ```sql\s+(.*?)\s+``` searched with
  // IGNORECASE and DOTALL, group 1 stripped -----

  /** The end of the run of white space that starts at `i`. */
  function SpaceRunEnd(s: string, i: nat): (j: nat)
    requires i <= |s|
    ensures i <= j <= |s| && (j == |s| || !IsSpace(s[j]))
    ensures forall k :: i <= k < j ==> IsSpace(s[k])
    decreases |s| - i
  {
    if i < |s| && IsSpace(s[i]) then SpaceRunEnd(s, i + 1) else i
  }

  /** The closing `\s+```` can start at `e`: the greedy `\s+` must end right
      before the fence, since a back-tick is not white space. */
  predicate CloseAt(s: string, e: nat) {
    e < |s| && IsSpace(s[e]) && StartsAt(s, SpaceRunEnd(s, e), "```")
  }

  /** The lazy group stops at the first place a closing fence can follow. */
  function FirstClose(s: string, from: nat): (r: Option<nat>)
    requires from <= |s|
    ensures r.Some? ==> from <= r.value < |s| && CloseAt(s, r.value)
    ensures r.Some? ==> forall e :: from <= e < r.value ==> !CloseAt(s, e)
    ensures r.None? ==> forall e :: from <= e ==> !CloseAt(s, e)
    decreases |s| - from
  {
    if from == |s| then None
    else if CloseAt(s, from) then Some(from)
    else FirstClose(s, from + 1)
  }

  /** "```sql" in any letter case. */
  predicate OpensAt(s: string, p: nat) {
    p + 6 <= |s| && Lower(s[p..p + 6]) == "```sql"
  }

  /** Group 1 of a match attempted at `p`. With the opening white space
      taken greedily the group starts at the first non-blank character `b`;
      when no closing fence follows from there, the regex engine gives one
      opening blank back, which succeeds (with an empty group) only when the
      fence stands right at `b` and at least two blanks were taken. */
  function MatchAt(s: string, p: nat): Option<string>
    requires p <= |s|
  {
    if !OpensAt(s, p) then None
    else
      var b := SpaceRunEnd(s, p + 6);
      if b == p + 6 then None
      else match FirstClose(s, b)
        case Some(e) => Some(s[b..e])
        case None => if b >= p + 8 && StartsAt(s, b, "```") then Some("") else None
  }

  /** re.search: the leftmost position where a match succeeds. */
  function SearchFrom(s: string, p: nat): Option<string>
    requires p <= |s|
    decreases |s| - p
  {
    if p == |s| then None
    else match MatchAt(s, p)
      case Some(g) => Some(g)
      case None => SearchFrom(s, p + 1)
  }

  /** extract_sql_block: the stripped body of the first fenced SQL block,
      None when there is none. */
  function ExtractSqlBlock(text: string): (r: Option<string>)
    ensures r.Some? ==> IsStripped(r.value)
  {
    match SearchFrom(text, 0)
    case None => None
    case Some(g) => StripIsStripped(g); Some(Strip(g))
  }

  /** A match attempt needs a back-tick at its start. */
  lemma {:induction false} NoFenceNoBlock(s: string, p: nat)
    requires p <= |s|
    requires forall i :: p <= i < |s| ==> s[i] != '`'
    ensures SearchFrom(s, p) == None
    decreases |s| - p
  {
    if p < |s| {
      NoOpenNoMatch(s, p);
      NoFenceNoBlock(s, p + 1);
    }
  }

  lemma NoOpenNoMatch(s: string, p: nat)
    requires p < |s| && s[p] != '`'
    ensures MatchAt(s, p) == None
  {
    if p + 6 <= |s| {
      assert Lower(s[p..p + 6])[0] == LowerChar(s[p]);
    }
  }

  /** A reply without any back-tick yields no SQL. */
  lemma NoBacktickNoSql(text: string)
    requires forall i :: 0 <= i < |text| ==> text[i] != '`'
    ensures ExtractSqlBlock(text) == None
  {
    NoFenceNoBlock(text, 0);
  }

  /** Inside a stripped body without a fence no closing fence can start. */
  lemma RoundTripNoEarlyClose(body: string, s: string)
    requires IsStripped(body) && !Contains(body, "```") && body != []
    requires s == "```sql\n" + body + "\n```"
    ensures forall e :: 7 <= e < 7 + |body| ==> !CloseAt(s, e)
  {
    forall e | 7 <= e < 7 + |body|
      ensures !CloseAt(s, e)
    {
      NoCloseInBody(body, s, e);
    }
  }

  lemma NoCloseInBody(body: string, s: string, e: nat)
    requires IsStripped(body) && !Contains(body, "```") && body != []
    requires s == "```sql\n" + body + "\n```"
    requires 7 <= e < 7 + |body|
    ensures !CloseAt(s, e)
  {
    var c := 7 + |body|;
    assert |s| == c + 4;
    assert s[c - 1] == body[|body| - 1];
    assert s[c] == '\n';
    if IsSpace(s[e]) {
      var q := SpaceRunEnd(s, e);
      SpaceRunStops(s, e, c - 1);
      if q + 3 <= c {
        assert body[q - 7..q - 4] == s[q..q + 3];
        assert !StartsAt(body, q - 7, "```");
      } else if q + 3 <= |s| {
        assert s[q..q + 3][c - q] == '\n';
      }
    }
  }

  lemma {:induction false} SpaceRunStops(s: string, i: nat, j: nat)
    requires i <= j < |s| && !IsSpace(s[j])
    ensures SpaceRunEnd(s, i) <= j
    decreases j - i
  {
    if i < j && IsSpace(s[i]) {
      SpaceRunStops(s, i + 1, j);
    }
  }

  lemma RoundTripNonEmpty(body: string)
    requires IsStripped(body) && !Contains(body, "```") && body != []
    ensures MatchAt("```sql\n" + body + "\n```", 0) == Some(body)
  {
    var s := "```sql\n" + body + "\n```";
    var c := 7 + |body|;
    assert |s| == c + 4;
    assert s[0..6] == "```sql";
    assert OpensAt(s, 0);
    assert s[6] == '\n' && s[7] == body[0];
    assert SpaceRunEnd(s, 6) == 7;
    assert s[c] == '\n' && s[c + 1] == '`';
    assert SpaceRunEnd(s, c) == c + 1;
    assert s[c + 1..c + 4] == "```";
    assert CloseAt(s, c);
    RoundTripNoEarlyClose(body, s);
    assert FirstClose(s, 7) == Some(c);
    assert s[7..c] == body;
  }

  /** Round trip: a stripped query without a fence, wrapped in a ```sql
      block, is extracted unchanged (an empty query included). */
  lemma ExtractRoundTrip(body: string)
    requires IsStripped(body) && !Contains(body, "```")
    ensures ExtractSqlBlock("```sql\n" + body + "\n```") == Some(body)
  {
    var s := "```sql\n" + body + "\n```";
    if body == [] {
      assert s == "```sql\n\n```";
      assert s[0..6] == "```sql";
      assert SpaceRunEnd(s, 8) == 8;
      assert SpaceRunEnd(s, 7) == 8;
      assert SpaceRunEnd(s, 6) == 8;
      assert forall e :: 8 <= e ==> !CloseAt(s, e);
      assert FirstClose(s, 8) == None;
      assert s[8..11] == "```";
      assert MatchAt(s, 0) == Some("");
    } else {
      RoundTripNonEmpty(body);
    }
    StripOfStripped(body);
  }

  // ----- clean_table_name -----

  /** clean_table_name: quotes and digits removed, lower-cased. */
  function CleanTableName(name: string): (r: string)
    ensures forall i :: 0 <= i < |r| ==> r[i] != '"' && !IsDigit(r[i]) && !IsUpper(r[i])
  {
    var noQuote := RemoveChar(name, '"');
    RemoveCharGone(name, '"');
    RemoveDigitsNoDigit(noQuote);
    RemoveDigitsKeepsOther(noQuote, '"');
    Lower(RemoveDigits(noQuote))
  }

  lemma {:induction false} RemoveCharLower(s: string, c: char)
    requires !IsUpper(c) && !IsLowerLetter(c)
    ensures RemoveChar(Lower(s), c) == Lower(RemoveChar(s, c))
  {
    if s != [] {
      assert Lower(s) == [LowerChar(s[0])] + Lower(s[1..]);
      RemoveCharLower(s[1..], c);
      LowerConcat(if s[0] == c then [] else [s[0]], RemoveChar(s[1..], c));
    }
  }

  lemma {:induction false} RemoveCharOfFree(s: string, c: char)
    requires forall i :: 0 <= i < |s| ==> s[i] != c
    ensures RemoveChar(s, c) == s
  {
    if s != [] {
      RemoveCharOfFree(s[1..], c);
    }
  }

  /** Cleaning a cleaned name changes nothing. */
  lemma CleanIdempotent(name: string)
    ensures CleanTableName(CleanTableName(name)) == CleanTableName(name)
  {
    var r := CleanTableName(name);
    RemoveCharOfFree(r, '"');
    RemoveDigitsOfDigitFree(r);
    assert Lower(r) == r;
  }

  /** Cleaning works character by character. */
  lemma CleanConcat(a: string, b: string)
    ensures CleanTableName(a + b) == CleanTableName(a) + CleanTableName(b)
  {
    RemoveCharConcat(a, b, '"');
    RemoveDigitsConcat(RemoveChar(a, '"'), RemoveChar(b, '"'));
    LowerConcat(RemoveDigits(RemoveChar(a, '"')), RemoveDigits(RemoveChar(b, '"')));
  }

  /** Names that differ in letter case, quoting or digits clean to the same
      string. */
  lemma CleanForgetsCaseAndDigits(name: string)
    ensures CleanTableName(Lower(name)) == CleanTableName(name)
    ensures CleanTableName(RemoveDigits(name)) == CleanTableName(name)
    ensures CleanTableName(RemoveChar(name, '"')) == CleanTableName(name)
  {
    RemoveCharLower(name, '"');
    RemoveDigitsLower(RemoveChar(name, '"'));
    LowerIdempotent(RemoveDigits(RemoveChar(name, '"')));
    RemoveCharDigits(name);
    RemoveDigitsIdempotent(RemoveChar(name, '"'));
    RemoveCharIdempotent(name, '"');
  }

  lemma {:induction false} RemoveCharDigits(s: string)
    ensures RemoveChar(RemoveDigits(s), '"') == RemoveDigits(RemoveChar(s, '"'))
  {
    if s != [] {
      RemoveCharDigits(s[1..]);
      var h := if IsDigit(s[0]) then [] else [s[0]];
      RemoveCharConcat(h, RemoveDigits(s[1..]), '"');
      var h' := if s[0] == '"' then [] else [s[0]];
      RemoveDigitsConcat(h', RemoveChar(s[1..], '"'));
    }
  }

  lemma RemoveCharIdempotent(s: string, c: char)
    ensures RemoveChar(RemoveChar(s, c), c) == RemoveChar(s, c)
  {
    RemoveCharGone(s, c);
    RemoveCharOfFree(RemoveChar(s, c), c);
  }

  // ----- SQL_completion -----

  const MaxCompletionRetries: nat := 10

  /** The keyword test that decides whether a Snowflake query goes to the
      model for completion. */
  predicate NeedsCompletion(text: string) {
    var l := Lower(text);
    || (Contains(l, "union") && Contains(l, "repeated"))
    || (Contains(l, "union") && Contains(l, "note"))
    || (Contains(l, "repeated") && Contains(l, "note"))
    || (Contains(l, "union") && Contains(l, "repeat"))
    || (Contains(l, "union") && Contains(l, "table") && Contains(l, "/*"))
  }

  lemma ContainsRepeat(l: string)
    requires Contains(l, "repeated")
    ensures Contains(l, "repeat")
  {
    var i :| 0 <= i <= |l| - 8 && StartsAt(l, i, "repeated");
    assert l[i..i + 6] == l[i..i + 8][..6];
    assert StartsAt(l, i, "repeat");
  }

  /** The five-way test, simplified: "repeated" with "union" is already
      covered by "repeat" with "union". */
  lemma NeedsCompletionSimplified(text: string)
    ensures NeedsCompletion(text) <==>
      var l := Lower(text);
      || (Contains(l, "union") && (Contains(l, "repeat") || Contains(l, "note") || (Contains(l, "table") && Contains(l, "/*"))))
      || (Contains(l, "repeated") && Contains(l, "note"))
  {
    var l := Lower(text);
    if Contains(l, "repeated") {
      ContainsRepeat(l);
    }
  }

  /** What one completion attempt yields: the reply's SQL block, or nothing
      when the call raised (a missing reply) or the reply had no block. */
  function Attempt(replies: seq<Option<string>>, i: nat): Option<string> {
    if i < |replies| && replies[i].Some? then ExtractSqlBlock(replies[i].value) else None
  }

  /** `if SQL:` -- an extracted block counts only when it is not empty. */
  predicate Usable(x: Option<string>) {
    x.Some? && x.value != ""
  }

  /** SQL_completion: status 0 with the first non-empty SQL block the model
      returns within ten attempts, otherwise status 1 with the text
      unchanged. Engines other than Snowflake and queries without the
      keywords are returned unchanged without calling the model. `calls` is
      the number of model calls made. */
  method SqlCompletion(text: string, dbType: DbType, replies: seq<Option<string>>)
    returns (status: int, sql: string, calls: nat)
    ensures status == 0 || status == 1
    ensures calls <= MaxCompletionRetries
    ensures dbType != Snow || !NeedsCompletion(text) ==> status == 1 && sql == text && calls == 0
    ensures status == 1 ==> sql == text
    ensures status == 1 ==> forall j :: 0 <= j < calls ==> !Usable(Attempt(replies, j))
    ensures status == 1 && dbType == Snow && NeedsCompletion(text) ==> calls == MaxCompletionRetries
    ensures status == 0 ==> 1 <= calls && Attempt(replies, calls - 1) == Some(sql) && sql != ""
    ensures status == 0 ==> forall j :: 0 <= j < calls - 1 ==> !Usable(Attempt(replies, j))
  {
    if dbType != Snow || !NeedsCompletion(text) {
      return 1, text, 0;
    }
    calls := 0;
    while calls < MaxCompletionRetries
      invariant calls <= MaxCompletionRetries
      invariant forall j :: 0 <= j < calls ==> !Usable(Attempt(replies, j))
    {
      var reply := if calls < |replies| then replies[calls] else None;
      var extracted := if reply.Some? then ExtractSqlBlock(reply.value) else None;
      assert extracted == Attempt(replies, calls);
      calls := calls + 1;
      if extracted.Some? && extracted.value != "" {
        return 0, extracted.value, calls;
      }
    }
    return 1, text, calls;
  }
}
