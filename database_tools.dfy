/** The agent's database tools: looking up a stored connection, running a query
    against it and shaping the result, listing tables and fetching a schema. */
module DatabaseTools {
  import opened Common

  /** A value in a result row. */
  datatype Value = Null | Str(s: string) | Int(i: int) | Bool(b: bool)

  /** The `credentials` column of a stored row: absent from the row, SQL NULL,
      or a JSON object. */
  datatype CredentialsColumn = NoColumn | NullColumn | Object(fields: map<string, string>)

  /** A row of the stored `connections` table, as `select("*")` returns it: its
      text columns, where a NULL column is present with the value `None`, and its
      credentials column. */
  datatype ConnectionRow = ConnectionRow(columns: map<string, Option<string>>, credentials: CredentialsColumn)

  /** What the query engine hands back: the column names and the fetched rows. */
  datatype QueryTable = QueryTable(columns: seq<string>, rows: seq<seq<Value>>)

  /** `execute_sql_query`'s value: a list of row dictionaries, or an `{"error": …}` dictionary. */
  datatype QueryResult = Rows(dicts: seq<map<string, Value>>) | ErrorDict(error: string)

  /** The outside world the tools talk to. `lookup` is what the `connections`
      query returns for the id (or the text of what it raised); `engine` runs a
      query over a connection string (or gives the text of what it raised). */
  datatype ToolEnv = ToolEnv(
    clientReady: bool,
    lookup: Remote<seq<ConnectionRow>>,
    engine: (string, string) -> Remote<QueryTable>)

  /** `_get_connection_data`: the first matching row, or the error it raises. */
  function LookupRow(env: ToolEnv, id: string): (r: Remote<ConnectionRow>)
    ensures !env.clientReady ==> r == Failed("Failed to initialize Supabase client")
    ensures env.clientReady && env.lookup == Ok([]) ==> r == Failed("Connection " + id + " not found")
    ensures env.clientReady && env.lookup.Failed? ==> r == Failed(env.lookup.message)
    ensures r.Ok? <==> env.clientReady && env.lookup.Ok? && |env.lookup.value| > 0
    ensures r.Ok? ==> r.value == env.lookup.value[0]
  {
    if !env.clientReady then Failed("Failed to initialize Supabase client")
    else match env.lookup
      case Failed(m) => Failed(m)
      case Ok(rows) => if |rows| == 0 then Failed("Connection " + id + " not found") else Ok(rows[0])
  }

  /** The provider of a row: the `db_provider_name` column when the row has one,
      else `db_name`. The fallback is evaluated first, so a row without `db_name`
      raises a KeyError even when `db_provider_name` is there. A NULL column is
      present, so it is returned as `None` rather than replaced by the fallback. */
  function ProviderOf(row: ConnectionRow): (r: Remote<Option<string>>)
    ensures r.Ok? <==> "db_name" in row.columns
    ensures r.Ok? && "db_provider_name" in row.columns ==> r.value == row.columns["db_provider_name"]
    ensures r.Ok? && "db_provider_name" !in row.columns ==> r.value == row.columns["db_name"]
    ensures r.Failed? ==> r.message == "'db_name'"
  {
    if "db_name" !in row.columns then Failed("'db_name'")
    else
      var fallback := row.columns["db_name"];
      Ok(if "db_provider_name" in row.columns then row.columns["db_provider_name"] else fallback)
  }

  function Min(a: nat, b: nat): nat
  {
    if a <= b then a else b
  }

  /** Column `i` is not named again later among the first `n` columns. */
  predicate LastOccurrence(columns: seq<string>, i: nat, n: nat)
    requires i < n <= |columns|
  {
    forall j :: i < j < n ==> columns[j] != columns[i]
  }

  /** The keys of `d` are exactly the first `n` column names. */
  ghost predicate KeysAreColumns(d: map<string, Value>, columns: seq<string>, n: nat)
    requires n <= |columns|
  {
    forall k :: k in d <==> exists i :: 0 <= i < n && columns[i] == k
  }

  /** Each of the first `n` column names maps to the value at its last position among them. */
  ghost predicate LastValueWins(d: map<string, Value>, columns: seq<string>, row: seq<Value>, n: nat)
    requires n <= |columns| && n <= |row|
  {
    forall i :: 0 <= i < n && LastOccurrence(columns, i, n) ==> columns[i] in d && d[columns[i]] == row[i]
  }

  /** The dictionary built from the first `n` column/value pairs, in order, so
      that a later pair overwrites an earlier one with the same name. */
  function ZipPrefix(columns: seq<string>, row: seq<Value>, n: nat): (d: map<string, Value>)
    requires n <= |columns| && n <= |row|
    ensures KeysAreColumns(d, columns, n)
    ensures LastValueWins(d, columns, row, n)
  {
    if n == 0 then map[]
    else
      var prev := ZipPrefix(columns, row, n - 1);
      ZipStep(prev, columns, row, n);
      prev[columns[n - 1] := row[n - 1]]
  }

  /** Adding the n-th pair extends both properties from n - 1 pairs to n. */
  lemma ZipStep(prev: map<string, Value>, columns: seq<string>, row: seq<Value>, n: nat)
    requires 0 < n <= |columns| && n <= |row|
    requires KeysAreColumns(prev, columns, n - 1) && LastValueWins(prev, columns, row, n - 1)
    ensures KeysAreColumns(prev[columns[n - 1] := row[n - 1]], columns, n)
    ensures LastValueWins(prev[columns[n - 1] := row[n - 1]], columns, row, n)
  {
    var d := prev[columns[n - 1] := row[n - 1]];
    forall k
      ensures k in d <==> exists i :: 0 <= i < n && columns[i] == k
    {
      if k == columns[n - 1] {
        assert 0 <= n - 1 < n && columns[n - 1] == k;
      } else if exists i :: 0 <= i < n && columns[i] == k {
        var i :| 0 <= i < n && columns[i] == k;
        assert i < n - 1;
      }
    }
    forall i | 0 <= i < n && LastOccurrence(columns, i, n)
      ensures columns[i] in d && d[columns[i]] == row[i]
    {
      if i < n - 1 {
        assert columns[n - 1] != columns[i];
        assert LastOccurrence(columns, i, n - 1);
      }
    }
  }

  /** `dict(zip(columns, row))`: pairs stop at the shorter of the two, and when a
      column name repeats, the later value wins. */
  function Zip(columns: seq<string>, row: seq<Value>): (d: map<string, Value>)
    ensures KeysAreColumns(d, columns, Min(|columns|, |row|))
    ensures LastValueWins(d, columns, row, Min(|columns|, |row|))
  {
    ZipPrefix(columns, row, Min(|columns|, |row|))
  }

  /** One dictionary per fetched row, in row order. */
  function RowsToDicts(columns: seq<string>, rows: seq<seq<Value>>): (r: seq<map<string, Value>>)
    ensures |r| == |rows|
    ensures forall i :: 0 <= i < |rows| ==> r[i] == Zip(columns, rows[i])
  {
    seq(|rows|, i requires 0 <= i < |rows| => Zip(columns, rows[i]))
  }

  const SqlErrorPrefix := "Failed to execute SQL via SQLAlchemy: "

  /** The text of the TypeError raised by indexing `None`. */
  const NoneNotSubscriptable := "'NoneType' object is not subscriptable"

  /** `execute_sql_query`: the lookup and the reads of `credentials` and of the
      provider may raise; past them, only a `supabase` row is queried, and every
      failure from there on, indexing a NULL `credentials` included, is returned
      as an error dictionary. */
  function ExecuteSql(env: ToolEnv, id: string, query: string): (r: Remote<QueryResult>)
    ensures LookupRow(env, id).Failed? ==> r == Failed(LookupRow(env, id).message)
    ensures LookupRow(env, id).Ok? && LookupRow(env, id).value.credentials.NoColumn? ==> r == Failed("'credentials'")
    ensures LookupRow(env, id).Ok? && !LookupRow(env, id).value.credentials.NoColumn? ==>
      var row := LookupRow(env, id).value;
      && (ProviderOf(row).Failed? ==> r == Failed("'db_name'"))
      && (ProviderOf(row).Ok? && ProviderOf(row).value != Some("supabase") ==> r == Ok(ErrorDict("Unsupported provider")))
      && (ProviderOf(row).Ok? && ProviderOf(row).value == Some("supabase") ==>
            && (row.credentials.NullColumn? ==> r == Ok(ErrorDict(SqlErrorPrefix + NoneNotSubscriptable)))
            && (row.credentials.Object? ==>
                  var credentials := row.credentials.fields;
                  && ("connection_string" !in credentials ==> r == Ok(ErrorDict(SqlErrorPrefix + "'connection_string'")))
                  && ("connection_string" in credentials ==>
                        var t := env.engine(credentials["connection_string"], query);
                        && (t.Ok? ==> r == Ok(Rows(RowsToDicts(t.value.columns, t.value.rows))))
                        && (t.Failed? ==> r == Ok(ErrorDict(SqlErrorPrefix + t.message))))))
    ensures r.Ok? && r.value.Rows? ==>
      var row := LookupRow(env, id).value;
      && ProviderOf(row) == Ok(Some("supabase"))
      && row.credentials.Object? && "connection_string" in row.credentials.fields
      && var t := env.engine(row.credentials.fields["connection_string"], query);
         t.Ok? && r.value.dicts == RowsToDicts(t.value.columns, t.value.rows)
  {
    match LookupRow(env, id)
    case Failed(m) => Failed(m)
    case Ok(row) =>
      if row.credentials.NoColumn? then Failed("'credentials'")
      else
        match ProviderOf(row)
        case Failed(m) => Failed(m)
        case Ok(provider) =>
          if provider != Some("supabase") then Ok(ErrorDict("Unsupported provider"))
          else match row.credentials
            case NullColumn => Ok(ErrorDict(SqlErrorPrefix + NoneNotSubscriptable))
            case Object(credentials) =>
              if "connection_string" !in credentials then Ok(ErrorDict(SqlErrorPrefix + "'connection_string'"))
              else match env.engine(credentials["connection_string"], query)
                case Ok(t) => Ok(Rows(RowsToDicts(t.columns, t.rows)))
                case Failed(m) => Ok(ErrorDict(SqlErrorPrefix + m))
  }

  /** `[row.get('table_name') for row in result if 'table_name' in row]`. */
  function TableNames(dicts: seq<map<string, Value>>): (r: seq<Value>)
    ensures |r| <= |dicts|
    ensures forall v :: v in r ==> exists d :: d in dicts && "table_name" in d && d["table_name"] == v
    ensures (forall i :: 0 <= i < |dicts| ==> "table_name" in dicts[i]) ==>
      |r| == |dicts| && forall i :: 0 <= i < |dicts| ==> r[i] == dicts[i]["table_name"]
  {
    if dicts == [] then []
    else if "table_name" in dicts[0] then [dicts[0]["table_name"]] + TableNames(dicts[1..])
    else TableNames(dicts[1..])
  }

  /** Extraction keeps the row order: the names of two batches are the names of
      the first followed by those of the second. */
  lemma {:induction false} TableNamesAppend(a: seq<map<string, Value>>, b: seq<map<string, Value>>)
    ensures TableNames(a + b) == TableNames(a) + TableNames(b)
  {
    if a == [] {
      assert a + b == b;
    } else {
      assert (a + b)[0] == a[0];
      assert (a + b)[1..] == a[1..] + b;
      TableNamesAppend(a[1..], b);
    }
  }

  const TablesQuery := "SELECT table_name FROM information_schema.tables WHERE table_schema = 'public'"

  /** `list_tables`: the table names on success, and `[]` for anything else (a
      failed lookup, a row without `db_name`, a provider other than `supabase`,
      an error dictionary or an exception); it never raises. */
  function ListTables(env: ToolEnv, id: string): (r: seq<Value>)
    ensures ExecuteSql(env, id, TablesQuery).Ok? && ExecuteSql(env, id, TablesQuery).value.Rows? ==>
      r == TableNames(ExecuteSql(env, id, TablesQuery).value.dicts)
    ensures !(ExecuteSql(env, id, TablesQuery).Ok? && ExecuteSql(env, id, TablesQuery).value.Rows?) ==> r == []
  {
    match LookupRow(env, id)
    case Failed(_) => []
    case Ok(row) =>
      match ProviderOf(row)
      case Failed(_) => []
      case Ok(provider) =>
        if provider != Some("supabase") then []
        else match ExecuteSql(env, id, TablesQuery)
          case Failed(_) => []
          case Ok(Rows(dicts)) => TableNames(dicts)
          case Ok(ErrorDict(_)) => []
  }

  /** A provider other than `supabase`, a NULL one included, always gives no tables. */
  lemma NoTablesOffSupabase(env: ToolEnv, id: string)
    requires LookupRow(env, id).Ok? && ProviderOf(LookupRow(env, id).value).Ok?
    requires ProviderOf(LookupRow(env, id).value).value != Some("supabase")
    ensures ListTables(env, id) == []
    ensures !LookupRow(env, id).value.credentials.NoColumn? ==>
      ExecuteSql(env, id, TablesQuery) == Ok(ErrorDict("Unsupported provider"))
  {
  }

  const SchemaQueryHead := "\n            SELECT column_name, data_type, is_nullable \n            FROM information_schema.columns \n            WHERE table_schema = 'public' AND table_name = '"
  const SchemaQueryTail := "'\n        "

  /** The schema query: the table name sits verbatim, unescaped, between the
      quotes at a fixed offset. */
  function SchemaQuery(table: string): (q: string)
    ensures |q| == |SchemaQueryHead| + |table| + |SchemaQueryTail|
    ensures q[..|SchemaQueryHead|] == SchemaQueryHead
    ensures q[|SchemaQueryHead|..|SchemaQueryHead| + |table|] == table
    ensures q[|SchemaQueryHead| + |table|..] == SchemaQueryTail
  {
    var q := SchemaQueryHead + table + SchemaQueryTail;
    assert q[..|SchemaQueryHead|] == SchemaQueryHead;
    assert q[|SchemaQueryHead|..|SchemaQueryHead| + |table|] == table;
    assert q[|SchemaQueryHead| + |table|..] == SchemaQueryTail;
    q
  }

  /** Different table names give different queries. */
  lemma SchemaQueryInjective(t1: string, t2: string)
    requires SchemaQuery(t1) == SchemaQuery(t2)
    ensures t1 == t2
  {
    assert |t1| == |t2|;
  }

  /** `get_table_schema`: the schema query for the table, run through
      `execute_sql_query`, whose every outcome it returns unchanged. */
  function GetTableSchema(env: ToolEnv, id: string, table: string): (r: Remote<QueryResult>)
    ensures r == ExecuteSql(env, id, SchemaQuery(table))
    ensures r.Failed? <==>
      || LookupRow(env, id).Failed?
      || LookupRow(env, id).value.credentials.NoColumn?
      || ProviderOf(LookupRow(env, id).value).Failed?
    ensures r.Failed? ==> r.message == if LookupRow(env, id).Failed? then LookupRow(env, id).message
                                        else if LookupRow(env, id).value.credentials.NoColumn? then "'credentials'"
                                        else "'db_name'"
    ensures
      && LookupRow(env, id).Ok? && !LookupRow(env, id).value.credentials.NoColumn?
      && ProviderOf(LookupRow(env, id).value).Ok?
      ==>
      var row := LookupRow(env, id).value;
      && (ProviderOf(row).value != Some("supabase") ==> r == Ok(ErrorDict("Unsupported provider")))
      && (ProviderOf(row).value == Some("supabase") && row.credentials.NullColumn? ==>
            r == Ok(ErrorDict(SqlErrorPrefix + NoneNotSubscriptable)))
      && (ProviderOf(row).value == Some("supabase") && row.credentials.Object? ==>
            && ("connection_string" !in row.credentials.fields ==>
                  r == Ok(ErrorDict(SqlErrorPrefix + "'connection_string'")))
            && ("connection_string" in row.credentials.fields ==>
                  var t := env.engine(row.credentials.fields["connection_string"], SchemaQuery(table));
                  && (t.Ok? ==> r == Ok(Rows(RowsToDicts(t.value.columns, t.value.rows))))
                  && (t.Failed? ==> r == Ok(ErrorDict(SqlErrorPrefix + t.message)))))
  {
    ExecuteSql(env, id, SchemaQuery(table))
  }
}
