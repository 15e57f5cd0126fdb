/** The SQL Server tool module of MSAgent/mcp_mssql.py: the connection settings
    and the ODBC connection string built from them, query execution with rows
    turned into dictionaries and any failure turned into one error row, the
    three tools (`select_from_table`, `get_tables`, `execute_stored_procedure`)
    with the dictionaries they return, and the module's registry of tools and its
    global connection. The database driver is a parameter: given the connection
    string, the statement and the values bound to it, it gives the column names
    and the rows, or the message of the exception it raised. */
module McpMssql {
  import opened Wrappers
  import opened Strings
  import opened Dicts
  import opened Json

  // ---------------------------------------------------------------- configuration

  /** `DatabaseConfig` */
  datatype DatabaseConfig = DatabaseConfig(
    server: string,
    port: string,
    database: Option<string>,
    username: Option<string>,
    password: Option<string>,
    driver: string,
    useWindowsAuth: bool,
    trustCert: bool,
    encrypt: string)

  /** `DatabaseConfig()` with every field at its default. */
  const DefaultConfig := DatabaseConfig("localhost", "1433", None, None, None,
                                        "ODBC Driver 18 for SQL Server", false, true, "no")

  /** `MSSQLConnection`: it copies the settings of its configuration and never
      changes them. */
  datatype Connection = Connection(config: DatabaseConfig)

  /** An optional string inside an f-string: `None` prints as "None". */
  function OptStr(o: Option<string>): string
  {
    if o.Some? then o.value else "None"
  }

  /** The `conn_parts` of `get_connection_string`: driver, server and port,
      database; then either Windows authentication or user and password; then
      the encryption setting, and certificate trust only when encryption is not
      "no". */
  function ConnectionParts(conn: Connection): (parts: seq<string>)
    ensures var c := conn.config;
      && |parts| == (if c.useWindowsAuth then 5 else 6) + (if c.trustCert && c.encrypt != "no" then 1 else 0)
      && parts[0] == "DRIVER={" + c.driver + "}"
      && parts[1] == "SERVER=" + c.server + "," + c.port
      && parts[2] == "DATABASE=" + OptStr(c.database)
      && (c.useWindowsAuth ==> parts[3] == "Trusted_Connection=yes")
      && (!c.useWindowsAuth ==> parts[3] == "UID=" + OptStr(c.username) && parts[4] == "PWD=" + OptStr(c.password))
      && parts[if c.useWindowsAuth then 4 else 5] == "Encrypt=" + c.encrypt
      && (c.trustCert && c.encrypt != "no" ==> parts[|parts| - 1] == "TrustServerCertificate=yes")
  {
    var c := conn.config;
    ["DRIVER={" + c.driver + "}", "SERVER=" + c.server + "," + c.port, "DATABASE=" + OptStr(c.database)]
    + (if c.useWindowsAuth then ["Trusted_Connection=yes"]
       else ["UID=" + OptStr(c.username), "PWD=" + OptStr(c.password)])
    + ["Encrypt=" + c.encrypt]
    + (if c.trustCert && c.encrypt != "no" then ["TrustServerCertificate=yes"] else [])
  }

  /** `get_connection_string()`: the parts joined with ";". */
  function ConnectionString(conn: Connection): string
  {
    Join(";", ConnectionParts(conn))
  }

  /** `MSSQLConnection.get_connection_string`, appending the parts one by one. */
  method GetConnectionString(conn: Connection) returns (s: string)
    ensures s == ConnectionString(conn)
  {
    var c := conn.config;
    var connParts := ["DRIVER={" + c.driver + "}", "SERVER=" + c.server + "," + c.port, "DATABASE=" + OptStr(c.database)];
    if c.useWindowsAuth {
      connParts := connParts + ["Trusted_Connection=yes"];
    } else {
      connParts := connParts + ["UID=" + OptStr(c.username)];
      connParts := connParts + ["PWD=" + OptStr(c.password)];
    }
    connParts := connParts + ["Encrypt=" + c.encrypt];
    if c.trustCert && c.encrypt != "no" {
      connParts := connParts + ["TrustServerCertificate=yes"];
    }
    assert connParts == ConnectionParts(conn);
    s := Join(";", connParts);
  }

  /** The connection string asks for Windows authentication exactly when the
      configuration does, and for trusting the server certificate exactly when
      trust is on and encryption is not "no"; the encryption setting is always
      there. */
  lemma AuthenticationParts(conn: Connection)
    ensures var c, parts := conn.config, ConnectionParts(conn);
      && ("Trusted_Connection=yes" in parts <==> c.useWindowsAuth)
      && ("TrustServerCertificate=yes" in parts <==> c.trustCert && c.encrypt != "no")
      && "Encrypt=" + c.encrypt in parts
  {
    var c, parts := conn.config, ConnectionParts(conn);
    var e := if c.useWindowsAuth then 4 else 5;
    assert parts[e] == "Encrypt=" + c.encrypt;
    forall i | 0 <= i < |parts| && i != 3
      ensures parts[i] != "Trusted_Connection=yes"
    {
      if i == 0 || i == 2 {
        assert parts[i][0] == 'D';
      } else if i == 1 {
        assert parts[i][0] == 'S';
      } else if i == e {
        assert parts[i][0] == 'E';
      } else if i == 4 && !c.useWindowsAuth {
        assert parts[i][0] == 'P';
      } else {
        assert parts[i] == "TrustServerCertificate=yes";
        assert parts[i][5] != "Trusted_Connection=yes"[5];
      }
    }
    if !c.useWindowsAuth {
      assert parts[3][0] == 'U';
    }
    forall i | 0 <= i < |parts| && i != |parts| - 1
      ensures parts[i] != "TrustServerCertificate=yes"
    {
      if i == 3 && c.useWindowsAuth {
        assert parts[i][5] != "TrustServerCertificate=yes"[5];
      } else if i == 3 {
        assert parts[i][0] == 'U';
      } else if i == 4 && !c.useWindowsAuth {
        assert parts[i][0] == 'P';
      } else if i == e {
        assert parts[i][0] == 'E';
      } else if i == 1 {
        assert parts[i][0] == 'S';
      } else {
        assert parts[i][0] == 'D';
      }
    }
    if !(c.trustCert && c.encrypt != "no") {
      assert parts[|parts| - 1] == parts[e];
      assert parts[e][0] == 'E';
    }
  }

  /** No setting contains the separator ";". */
  predicate SettingsWithoutSemicolon(c: DatabaseConfig)
  {
    && ';' !in c.driver && ';' !in c.server && ';' !in c.port && ';' !in OptStr(c.database)
    && ';' !in OptStr(c.username) && ';' !in OptStr(c.password) && ';' !in c.encrypt
  }

  /** When no setting contains ";", the driver reading the connection string
      finds exactly the parts it was built from, in order. */
  lemma ConnectionStringSplits(conn: Connection)
    requires SettingsWithoutSemicolon(conn.config)
    ensures Split(ConnectionString(conn), ';') == ConnectionParts(conn)
  {
    var parts := ConnectionParts(conn);
    assert forall i :: 0 <= i < |parts| ==> ';' !in parts[i];
    SplitJoin(parts, ';');
    assert [';'] == ";";
  }

  // ---------------------------------------------------------------- execute_query

  /** What the driver gives for one statement: the column names of the cursor
      description (none for a statement without a result set) and the fetched
      rows, or the message of the exception raised while connecting, executing
      or fetching. */
  datatype DbOutcome = Fetched(columns: seq<string>, rows: seq<seq<Json>>) | DbRaised(message: string)

  /** `pyodbc`: connection string, statement and the bound values (`None` for
      `cursor.execute(query)`) to the outcome. */
  type SqlDriver = (string, string, Option<seq<Json>>) -> DbOutcome

  /** `if params:` binds the values only when there are some. */
  function BoundValues(params: Option<seq<Json>>): (b: Option<seq<Json>>)
    ensures b.Some? <==> params.Some? && params.value != []
    ensures b.Some? ==> b == params
  {
    if params.Some? && params.value != [] then params else None
  }

  /** `zip(a, b)`: pairs up to the shorter length. */
  function Zip<A, B>(a: seq<A>, b: seq<B>): (z: seq<(A, B)>)
    ensures |z| == if |a| < |b| then |a| else |b|
    ensures forall i :: 0 <= i < |z| ==> z[i] == (a[i], b[i])
  {
    if a == [] || b == [] then [] else [(a[0], b[0])] + Zip(a[1..], b[1..])
  }

  /** The dictionary of one row: each column name assigned its value in turn. */
  function RowDict(columns: seq<string>, row: seq<Json>): Dict<Json>
  {
    FromPairs(Zip(columns, row))
  }

  /** `{"error": str(e)}` */
  function ErrorRow(message: string): Dict<Json>
  {
    [("error", Str(message))]
  }

  /** The list `execute_query` returns for an outcome. */
  function QueryResults(o: DbOutcome): seq<Dict<Json>>
  {
    match o
    case DbRaised(e) => [ErrorRow(e)]
    case Fetched(columns, rows) => RowDicts(columns, rows)
  }

  /** One dictionary per row, in order. */
  function RowDicts(columns: seq<string>, rows: seq<seq<Json>>): (ds: seq<Dict<Json>>)
    ensures |ds| == |rows| && forall i :: 0 <= i < |rows| ==> ds[i] == RowDict(columns, rows[i])
  {
    if rows == [] then [] else RowDicts(columns, rows[..|rows| - 1]) + [RowDict(columns, rows[|rows| - 1])]
  }

  /** `self.execute_query(query, params)` on a connection. */
  function RunQuery(conn: Connection, query: string, params: Option<seq<Json>>, driver: SqlDriver): seq<Dict<Json>>
  {
    QueryResults(driver(ConnectionString(conn), query, BoundValues(params)))
  }

  /** `MSSQLConnection.execute_query`: one dictionary per fetched row, in
      order. */
  method ExecuteQuery(conn: Connection, query: string, params: Option<seq<Json>>, driver: SqlDriver)
    returns (results: seq<Dict<Json>>)
    ensures results == RunQuery(conn, query, params, driver)
  {
    var connString := GetConnectionString(conn);
    var outcome := driver(connString, query, if params.Some? && params.value != [] then params else None);
    match outcome
    case DbRaised(e) =>
      results := [ErrorRow(e)];
    case Fetched(columns, rows) =>
      results := BuildRows(columns, rows);
  }

  /** The loop of `execute_query` over `cursor.fetchall()`: one dictionary per
      row, appended in order. */
  method BuildRows(columns: seq<string>, rows: seq<seq<Json>>) returns (results: seq<Dict<Json>>)
    ensures results == RowDicts(columns, rows)
  {
    results := [];
    var i := 0;
    while i < |rows|
      invariant 0 <= i <= |rows|
      invariant results == RowDicts(columns, rows[..i])
    {
      var rowDict := BuildRowDict(columns, rows[i]);
      RowDictsStep(columns, rows, i);
      results := results + [rowDict];
      i := i + 1;
    }
    assert rows[..|rows|] == rows;
  }

  lemma RowDictsStep(columns: seq<string>, rows: seq<seq<Json>>, i: nat)
    requires i < |rows|
    ensures RowDicts(columns, rows[..i + 1]) == RowDicts(columns, rows[..i]) + [RowDict(columns, rows[i])]
  {
    assert rows[..i + 1][..i] == rows[..i];
  }

  /** The inner loop of `execute_query`: `row_dict[col_name] = value` for each
      pair of `zip(columns, row)`. */
  method BuildRowDict(columns: seq<string>, row: seq<Json>) returns (rowDict: Dict<Json>)
    ensures rowDict == RowDict(columns, row)
  {
    rowDict := [];
    var pairs := Zip(columns, row);
    var j := 0;
    while j < |pairs|
      invariant 0 <= j <= |pairs|
      invariant rowDict == FromPairs(pairs[..j])
    {
      FromPairsStep(pairs, j);
      rowDict := Assign(rowDict, pairs[j].0, pairs[j].1);
      j := j + 1;
    }
    assert pairs[..|pairs|] == pairs;
  }

  /** A row keeps the value of each column; with distinct column names it lists
      the columns in order, up to the shorter of the description and the row. */
  lemma RowDictColumns(columns: seq<string>, row: seq<Json>, k: string)
    ensures Lookup(RowDict(columns, row), k) == LastValue(Zip(columns, row), k)
    ensures (forall i, j :: 0 <= i < j < |columns| ==> columns[i] != columns[j]) ==>
      RowDict(columns, row) == Zip(columns, row)
  {
    FromPairsLookup(Zip(columns, row), k);
    var z := Zip(columns, row);
    if forall i, j :: 0 <= i < j < |columns| ==> columns[i] != columns[j] {
      assert DistinctKeys(z);
      FromPairsDistinct(z);
    }
  }

  /** `results and "error" in results[0]`: how every tool recognises a failure. */
  predicate ReportsError(results: seq<Dict<Json>>)
  {
    |results| > 0 && HasKey(results[0], "error")
  }

  /** The check recognises every exception, with its message, but also a first
      row that has a column named "error". */
  lemma ErrorCheck(o: DbOutcome)
    ensures o.DbRaised? ==> ReportsError(QueryResults(o)) && Get(QueryResults(o)[0], "error") == Str(o.message)
    ensures o.Fetched? ==>
      (ReportsError(QueryResults(o)) <==>
         o.rows != [] && exists i :: 0 <= i < |o.columns| && i < |o.rows[0]| && o.columns[i] == "error")
  {
    if o.Fetched? && o.rows != [] {
      var z := Zip(o.columns, o.rows[0]);
      FromPairsHasKey(z, "error");
      assert QueryResults(o)[0] == FromPairs(z);
    }
  }

  // ---------------------------------------------------------------- the tool results

  /** `str(e)` for the `AttributeError` of calling a tool before
      `get_all_mcp_tools` has set the global connection. */
  const NoConnectionError := "'NoneType' object has no attribute 'execute_query'"

  /** The dictionary `select_from_table` or `execute_stored_procedure` returns,
      entry by entry: the reported rows (their number is the `count`), the error
      if there is one, the procedure name for stored procedures, and the
      statement. */
  datatype QueryReport = QueryReport(rows: seq<Dict<Json>>, error: Option<Json>, procedure: Option<string>, query: string)

  /** A list of row dictionaries as a JSON value. */
  function RowsJson(results: seq<Dict<Json>>): (j: Json)
    ensures j.List? && |j.items| == |results|
  {
    List(seq(|results|, i requires 0 <= i < |results| => Object(results[i])))
  }

  /** The report as the Python dictionary, in the source's key order. */
  function ReportJson(r: QueryReport): Json
  {
    Object([("results", RowsJson(r.rows)), ("count", Int(|r.rows|))]
           + (if r.error.Some? then [("error", r.error.value)] else [])
           + (if r.procedure.Some? then [("procedure", Str(r.procedure.value))] else [])
           + [("query", Str(r.query))])
  }

  /** The value under each key of the dictionary: the count is the length of
      the `results` list, and the error key is there only for an error. */
  lemma ReportJsonLayout(r: QueryReport)
    ensures var j := ReportJson(r);
      && Get(j.fields, "results") == RowsJson(r.rows)
      && Get(j.fields, "count") == Int(|Get(j.fields, "results").items|)
      && Get(j.fields, "query") == Str(r.query)
      && (HasKey(j.fields, "error") <==> r.error.Some?)
      && (r.error.Some? ==> Get(j.fields, "error") == r.error.value)
  {
    var j := ReportJson(r);
    ReportLeading(r);
    assert Get(j.fields, "results") == RowsJson(r.rows);
    ReportError(r);
    ReportQuery(r);
  }

  lemma ReportLeading(r: QueryReport)
    ensures Lookup(ReportJson(r).fields, "results") == Some(RowsJson(r.rows))
    ensures Lookup(ReportJson(r).fields, "count") == Some(Int(|r.rows|))
  {
    var fields := ReportJson(r).fields;
    assert fields[0] == ("results", RowsJson(r.rows));
    assert fields[1] == ("count", Int(|r.rows|));
    assert Lookup(fields, "count") == Lookup(fields[1..], "count");
  }

  lemma ReportError(r: QueryReport)
    ensures Lookup(ReportJson(r).fields, "error") == r.error
  {
    var head := [("results", RowsJson(r.rows)), ("count", Int(|r.rows|))];
    var err := if r.error.Some? then [("error", r.error.value)] else [];
    var proc := if r.procedure.Some? then [("procedure", Str(r.procedure.value))] else [];
    var last := [("query", Str(r.query))];
    assert ReportJson(r).fields == head + (err + (proc + last));
    LookupAppend(head, err + (proc + last), "error");
    assert !HasKey(head, "error");
    if r.error.Some? {
      LookupAppend(err, proc + last, "error");
    } else {
      assert err + (proc + last) == proc + last;
      LookupAppend(proc, last, "error");
      assert !HasKey(proc, "error");
    }
  }

  lemma ReportQuery(r: QueryReport)
    ensures Lookup(ReportJson(r).fields, "query") == Some(Str(r.query))
  {
    var head := [("results", RowsJson(r.rows)), ("count", Int(|r.rows|))];
    var err := if r.error.Some? then [("error", r.error.value)] else [];
    var proc := if r.procedure.Some? then [("procedure", Str(r.procedure.value))] else [];
    var last := [("query", Str(r.query))];
    assert ReportJson(r).fields == head + (err + (proc + last));
    LookupAppend(head, err + (proc + last), "query");
    assert !HasKey(head, "query");
    LookupAppend(err, proc + last, "query");
    assert !HasKey(err, "query");
    LookupAppend(proc, last, "query");
    assert !HasKey(proc, "query");
  }

  /** The report of a tool whose statement gave `results`: on an error row, no
      rows and that row's error; otherwise all the rows and no error. */
  function ReportFor(results: seq<Dict<Json>>, procedure: Option<string>, query: string): (r: QueryReport)
    ensures r.procedure == procedure && r.query == query
    ensures r.error.Some? <==> ReportsError(results)
    ensures r.error.Some? ==> r.error.value == Get(results[0], "error") && r.rows == []
    ensures r.error.None? ==> r.rows == results
  {
    if ReportsError(results) then QueryReport([], Some(Get(results[0], "error")), procedure, query)
    else QueryReport(results, None, procedure, query)
  }

  /** The report of the `except` branch of a query tool. */
  function ExceptionReport(message: string, procedure: Option<string>, query: string): QueryReport
  {
    QueryReport([], Some(Str(message)), procedure, query)
  }

  // ---------------------------------------------------------------- select_from_table

  /** `if limit:` for an optional integer. */
  predicate LimitGiven(limit: Option<int>)
  {
    limit.Some? && limit.value != 0
  }

  /** `if condition:` for an optional string. */
  predicate TextGiven(t: Option<string>)
  {
    t.Some? && t.value != ""
  }

  /** `q += clause` under `if given:` */
  function AppendIf(q: string, given: bool, clause: string): string
  {
    if given then q + clause else q
  }

  /** `f"TOP {limit} "` */
  function TopText(limit: Option<int>): string
  {
    if limit.Some? then "TOP " + Decimal(limit.value) + " " else ""
  }

  /** `f"{keyword}{t}"` for an optional text. */
  function ClauseText(keyword: string, t: Option<string>): string
  {
    if t.Some? then keyword + t.value else ""
  }

  /** The statement `select_from_table` builds. */
  function SelectQuery(table: string, limit: Option<int>, condition: Option<string>, orderBy: Option<string>): string
  {
    var q := AppendIf("SELECT ", LimitGiven(limit), TopText(limit)) + ("* FROM " + table);
    var filtered := AppendIf(q, TextGiven(condition), ClauseText(" WHERE ", condition));
    AppendIf(filtered, TextGiven(orderBy), ClauseText(" ORDER BY ", orderBy))
  }

  /** The statement built clause by clause with `+=`. */
  method BuildSelectQuery(table: string, limit: Option<int>, condition: Option<string>, orderBy: Option<string>)
    returns (query: string)
    ensures query == SelectQuery(table, limit, condition, orderBy)
  {
    query := "SELECT ";
    if LimitGiven(limit) {
      query := query + ("TOP " + Decimal(limit.value) + " ");
    }
    query := query + ("* FROM " + table);
    if TextGiven(condition) {
      query := query + (" WHERE " + condition.value);
    }
    if TextGiven(orderBy) {
      query := query + (" ORDER BY " + orderBy.value);
    }
  }

  /** The statement starts with "SELECT TOP " exactly when a limit is given, and
      then names the limit and the table. */
  lemma SelectQueryStart(table: string, limit: Option<int>, condition: Option<string>, orderBy: Option<string>)
    ensures var q := SelectQuery(table, limit, condition, orderBy);
      && (LimitGiven(limit) <==> "SELECT TOP " <= q)
      && (LimitGiven(limit) ==> "SELECT TOP " + Decimal(limit.value) + " * FROM " + table <= q)
      && (!LimitGiven(limit) ==> "SELECT * FROM " + table <= q)
  {
    var head := AppendIf("SELECT ", LimitGiven(limit), TopText(limit)) + ("* FROM " + table);
    SelectQueryHead(table, limit, condition, orderBy);
    if LimitGiven(limit) {
      SelectHeadWithLimit(table, limit.value);
    } else {
      assert head == "SELECT * FROM " + table;
      assert head[7] == '*';
    }
  }

  /** The statement begins with its `SELECT ... FROM table` part. */
  lemma SelectQueryHead(table: string, limit: Option<int>, condition: Option<string>, orderBy: Option<string>)
    ensures AppendIf("SELECT ", LimitGiven(limit), TopText(limit)) + ("* FROM " + table)
            <= SelectQuery(table, limit, condition, orderBy)
  {
    var head := AppendIf("SELECT ", LimitGiven(limit), TopText(limit)) + ("* FROM " + table);
    var filtered := AppendIf(head, TextGiven(condition), ClauseText(" WHERE ", condition));
    PrefixOfAppend(head, ClauseText(" WHERE ", condition));
    PrefixOfAppend(filtered, ClauseText(" ORDER BY ", orderBy));
  }

  lemma SelectHeadWithLimit(table: string, n: int)
    requires n != 0
    ensures var head := "SELECT " + TopText(Some(n)) + ("* FROM " + table);
      && head == "SELECT TOP " + Decimal(n) + " * FROM " + table
      && "SELECT TOP " <= head
  {
    var d := Decimal(n);
    var rest := d + " " + ("* FROM " + table);
    assert "SELECT " + ("TOP " + d + " ") + ("* FROM " + table) == "SELECT " + "TOP " + rest;
    assert "SELECT " + "TOP " == "SELECT TOP ";
    assert " " + "* FROM " == " * FROM ";
    PrefixOfAppend("SELECT TOP ", rest);
  }

  /** The statement ends with the ordering when one is given, otherwise with
      the condition when one is given, otherwise with the table. */
  lemma SelectQueryEnd(table: string, limit: Option<int>, condition: Option<string>, orderBy: Option<string>)
    ensures var q := SelectQuery(table, limit, condition, orderBy);
      && (TextGiven(orderBy) ==> EndsWith(q, " ORDER BY " + orderBy.value))
      && (!TextGiven(orderBy) && TextGiven(condition) ==> EndsWith(q, " WHERE " + condition.value))
      && (!TextGiven(orderBy) && !TextGiven(condition) ==> EndsWith(q, "* FROM " + table))
  {
    var front := AppendIf("SELECT ", LimitGiven(limit), TopText(limit));
    var head := front + ("* FROM " + table);
    var filtered := AppendIf(head, TextGiven(condition), ClauseText(" WHERE ", condition));
    if TextGiven(orderBy) {
      EndsWithAppend(filtered, " ORDER BY " + orderBy.value);
    } else if TextGiven(condition) {
      EndsWithAppend(head, " WHERE " + condition.value);
    } else {
      EndsWithAppend(front, "* FROM " + table);
    }
  }

  /** What `select_from_table` returns, given the global connection: before
      `get_all_mcp_tools` the call on `None` raises, with the statement already
      built. */
  function SelectResult(db: Option<Connection>, table: string, limit: Option<int>, condition: Option<string>,
                        orderBy: Option<string>, driver: SqlDriver): (r: QueryReport)
    ensures r.query == SelectQuery(table, limit, condition, orderBy) && r.procedure == None
    ensures db.None? ==> r.rows == [] && r.error == Some(Str(NoConnectionError))
  {
    var query := SelectQuery(table, limit, condition, orderBy);
    match db
    case None => ExceptionReport(NoConnectionError, None, query)
    case Some(conn) => ReportFor(RunQuery(conn, query, None, driver), None, query)
  }

  /** A select whose result set has no column named "error" reports every row,
      each as the dictionary of its columns. */
  lemma SelectReportsRows(conn: Connection, table: string, limit: Option<int>, condition: Option<string>,
                          orderBy: Option<string>, driver: SqlDriver, columns: seq<string>, rows: seq<seq<Json>>)
    requires driver(ConnectionString(conn), SelectQuery(table, limit, condition, orderBy), None) == Fetched(columns, rows)
    requires "error" !in columns
    ensures var r := SelectResult(Some(conn), table, limit, condition, orderBy, driver);
      && r.error == None
      && |r.rows| == |rows|
      && forall i :: 0 <= i < |rows| ==> r.rows[i] == RowDict(columns, rows[i])
  {
    ErrorCheck(Fetched(columns, rows));
  }

  /** A select the driver fails reports the driver's message and no rows. */
  lemma SelectReportsDriverError(conn: Connection, table: string, limit: Option<int>, condition: Option<string>,
                                 orderBy: Option<string>, driver: SqlDriver, e: string)
    requires driver(ConnectionString(conn), SelectQuery(table, limit, condition, orderBy), None) == DbRaised(e)
    ensures var r := SelectResult(Some(conn), table, limit, condition, orderBy, driver);
      r.error == Some(Str(e)) && r.rows == []
  {
    ErrorCheck(DbRaised(e));
  }

  // ---------------------------------------------------------------- get_tables

  /** The catalogue query of `get_tables`. */
  const TablesQuery :=
    "\n        SELECT \n            TABLE_SCHEMA,\n            TABLE_NAME,\n            TABLE_TYPE\n"
    + "        FROM INFORMATION_SCHEMA.TABLES\n        WHERE TABLE_TYPE = 'BASE TABLE'\n"
    + "        ORDER BY TABLE_SCHEMA, TABLE_NAME\n        "

  /** `f"{row['TABLE_SCHEMA']}.{row['TABLE_NAME']}"` */
  function QualifiedName(row: Dict<Json>): string
  {
    PyStr(Get(row, "TABLE_SCHEMA")) + "." + PyStr(Get(row, "TABLE_NAME"))
  }

  /** The rows the comprehension keeps: those with a `TABLE_SCHEMA`, in order. */
  function SchemaRows(results: seq<Dict<Json>>): (kept: seq<Dict<Json>>)
    ensures |kept| <= |results|
    ensures forall i :: 0 <= i < |kept| ==> HasKey(kept[i], "TABLE_SCHEMA")
    ensures (forall i :: 0 <= i < |results| ==> HasKey(results[i], "TABLE_SCHEMA")) ==> kept == results
  {
    if results == [] then []
    else
      var rest := SchemaRows(results[1..]);
      assert forall i :: 1 <= i < |results| ==> results[i] == results[1..][i - 1];
      if HasKey(results[0], "TABLE_SCHEMA") then [results[0]] + rest else rest
  }

  /** Every row with a schema also has a table name. */
  predicate NamedTables(results: seq<Dict<Json>>)
  {
    forall i :: 0 <= i < |results| && HasKey(results[i], "TABLE_SCHEMA") ==> HasKey(results[i], "TABLE_NAME")
  }

  /** The names of the comprehension in `get_tables`, or the `KeyError` it
      raises for a row with a schema but no table name. */
  function TableNames(results: seq<Dict<Json>>): (r: Result<seq<string>, string>)
    ensures r.Success? <==> NamedTables(results)
    ensures r.Failure? ==> r.error == "'TABLE_NAME'"
  {
    if results == [] then Success([])
    else
      var rest := TableNames(results[1..]);
      assert forall i :: 1 <= i < |results| ==> results[i] == results[1..][i - 1];
      if !HasKey(results[0], "TABLE_SCHEMA") then rest
      else if !HasKey(results[0], "TABLE_NAME") then Failure("'TABLE_NAME'")
      else match rest
        case Success(names) => Success([QualifiedName(results[0])] + names)
        case Failure(e) => Failure(e)
  }

  /** The names listed are those of the kept rows, one each, in order. */
  lemma {:induction false} TableNamesOfKeptRows(results: seq<Dict<Json>>)
    requires NamedTables(results)
    ensures var names := TableNames(results).value; var kept := SchemaRows(results);
      |names| == |kept| && forall i :: 0 <= i < |kept| ==> names[i] == QualifiedName(kept[i])
  {
    if results != [] {
      KeptRowsStep(results);
      TableNamesOfKeptRows(results[1..]);
      var names, kept := TableNames(results).value, SchemaRows(results);
      var names', kept' := TableNames(results[1..]).value, SchemaRows(results[1..]);
      if HasKey(results[0], "TABLE_SCHEMA") {
        forall i | 0 <= i < |kept| ensures names[i] == QualifiedName(kept[i])
        {
          if i > 0 {
            assert names[i] == names'[i - 1] && kept[i] == kept'[i - 1];
          }
        }
      }
    }
  }

  /** One step of the comprehension: the first row is kept and named, or
      skipped. */
  lemma KeptRowsStep(results: seq<Dict<Json>>)
    requires results != [] && NamedTables(results)
    ensures NamedTables(results[1..])
    ensures HasKey(results[0], "TABLE_SCHEMA") ==>
      && SchemaRows(results) == [results[0]] + SchemaRows(results[1..])
      && TableNames(results).value == [QualifiedName(results[0])] + TableNames(results[1..]).value
    ensures !HasKey(results[0], "TABLE_SCHEMA") ==>
      SchemaRows(results) == SchemaRows(results[1..]) && TableNames(results) == TableNames(results[1..])
  {
    var tail := results[1..];
    assert forall i :: 0 <= i < |tail| ==> tail[i] == results[i + 1];
  }

  /** The dictionary `get_tables` returns: the listed tables (their number is
      the `count`) and the error if there is one. */
  datatype TablesReport = TablesReport(tables: seq<string>, error: Option<Json>)

  /** Table names as a JSON list. */
  function NamesJson(names: seq<string>): (j: Json)
    ensures j.List? && |j.items| == |names|
  {
    List(seq(|names|, i requires 0 <= i < |names| => Str(names[i])))
  }

  /** The report as the Python dictionary, in the source's key order. */
  function TablesJson(r: TablesReport): Json
  {
    Object([("tables", NamesJson(r.tables)), ("count", Int(|r.tables|))]
           + (if r.error.Some? then [("error", r.error.value)] else []))
  }

  /** The value under each key of the dictionary: the count is the length of
      the `tables` list, and the error key is there only for an error. */
  lemma TablesJsonLayout(r: TablesReport)
    ensures var j := TablesJson(r);
      && Get(j.fields, "tables") == NamesJson(r.tables)
      && Get(j.fields, "count") == Int(|Get(j.fields, "tables").items|)
      && (HasKey(j.fields, "error") <==> r.error.Some?)
      && (r.error.Some? ==> Get(j.fields, "error") == r.error.value)
  {
    var fields := TablesJson(r).fields;
    var names := ("tables", NamesJson(r.tables));
    var count := ("count", Int(|r.tables|));
    LookupFirst(fields, 0, "tables");
    LookupFirst(fields, 1, "count");
    if r.error.Some? {
      assert fields == [names, count, ("error", r.error.value)];
      LookupFirst(fields, 2, "error");
    } else {
      assert fields == [names, count];
    }
  }

  /** The report `get_tables` gives for the rows of its query: an error row's
      error, the `KeyError` of a kept row without a table name, or the names. */
  function TablesFor(results: seq<Dict<Json>>): (r: TablesReport)
    ensures r.error.Some? <==> ReportsError(results) || !NamedTables(results)
    ensures r.error.Some? ==> r.tables == []
    ensures ReportsError(results) ==> r.error == Some(Get(results[0], "error"))
    ensures !ReportsError(results) && !NamedTables(results) ==> r.error == Some(Str("'TABLE_NAME'"))
    ensures r.error.None? ==> r.tables == TableNames(results).value
  {
    if ReportsError(results) then TablesReport([], Some(Get(results[0], "error")))
    else match TableNames(results)
      case Failure(e) => TablesReport([], Some(Str(e)))
      case Success(names) => TablesReport(names, None)
  }

  /** What `get_tables` returns, given the global connection. */
  function GetTablesResult(db: Option<Connection>, driver: SqlDriver): (r: TablesReport)
    ensures db.None? ==> r == TablesReport([], Some(Str(NoConnectionError)))
  {
    match db
    case None => TablesReport([], Some(Str(NoConnectionError)))
    case Some(conn) => TablesFor(RunQuery(conn, TablesQuery, None, driver))
  }

  const CatalogueColumns := ["TABLE_SCHEMA", "TABLE_NAME", "TABLE_TYPE"]

  /** A catalogue row holds its schema and its table name. */
  lemma CatalogueRow(row: seq<Json>)
    requires |row| == 3
    ensures Lookup(RowDict(CatalogueColumns, row), "TABLE_SCHEMA") == Some(row[0])
    ensures Lookup(RowDict(CatalogueColumns, row), "TABLE_NAME") == Some(row[1])
  {
    var z := Zip(CatalogueColumns, row);
    FromPairsLookup(z, "TABLE_SCHEMA");
    FromPairsLookup(z, "TABLE_NAME");
    assert z[..2][..1] == z[..1];
    assert LastValue(z[..1], "TABLE_SCHEMA") == Some(row[0]);
    assert LastValue(z[..2], "TABLE_NAME") == Some(row[1]);
  }

  /** The rows of a catalogue are no error, all named, and each gives its
      schema.name. */
  lemma CatalogueResults(rows: seq<seq<Json>>)
    requires forall i :: 0 <= i < |rows| ==> |rows[i]| == 3
    ensures var results := QueryResults(Fetched(CatalogueColumns, rows));
      && !ReportsError(results)
      && NamedTables(results)
      && SchemaRows(results) == results
      && forall i :: 0 <= i < |rows| ==> QualifiedName(results[i]) == PyStr(rows[i][0]) + "." + PyStr(rows[i][1])
  {
    var results := QueryResults(Fetched(CatalogueColumns, rows));
    assert "error" !in CatalogueColumns;
    ErrorCheck(Fetched(CatalogueColumns, rows));
    forall i | 0 <= i < |rows|
      ensures HasKey(results[i], "TABLE_SCHEMA") && HasKey(results[i], "TABLE_NAME")
      ensures QualifiedName(results[i]) == PyStr(rows[i][0]) + "." + PyStr(rows[i][1])
    {
      CatalogueRow(rows[i]);
      assert results[i] == RowDict(CatalogueColumns, rows[i]);
    }
  }

  /** A catalogue with its three columns lists every table as schema.name, in
      the order the catalogue gives them. */
  lemma TablesFromCatalogue(conn: Connection, driver: SqlDriver, rows: seq<seq<Json>>)
    requires driver(ConnectionString(conn), TablesQuery, None) == Fetched(CatalogueColumns, rows)
    requires forall i :: 0 <= i < |rows| ==> |rows[i]| == 3
    ensures var r := GetTablesResult(Some(conn), driver);
      && r.error == None
      && |r.tables| == |rows|
      && forall i :: 0 <= i < |rows| ==> r.tables[i] == PyStr(rows[i][0]) + "." + PyStr(rows[i][1])
  {
    var results := QueryResults(Fetched(CatalogueColumns, rows));
    assert RunQuery(conn, TablesQuery, None, driver) == results;
    CatalogueResults(rows);
    TableNamesOfKeptRows(results);
  }

  // ---------------------------------------------------------------- execute_stored_procedure

  /** An `EXEC` statement and the values bound to its placeholders. */
  datatype Statement = Statement(query: string, values: Option<seq<Json>>)

  /** `[f"@{key} = ?" for key in parameters.keys()]` */
  function Placeholders(keys: seq<string>): (ps: seq<string>)
    ensures |ps| == |keys|
    ensures forall i :: 0 <= i < |keys| ==> ps[i] == "@" + keys[i] + " = ?"
  {
    seq(|keys|, i requires 0 <= i < |keys| => "@" + keys[i] + " = ?")
  }

  /** The statement `execute_stored_procedure` builds: with parameters, one
      placeholder per parameter in the dictionary's order, and its values in the
      same order; without, the bare procedure and nothing bound. */
  function ExecStatement(procedure: string, parameters: Option<Dict<Json>>): (st: Statement)
    ensures st.values.Some? <==> parameters.Some? && parameters.value != []
    ensures st.values.Some? ==>
      && |st.values.value| == |parameters.value|
      && forall i :: 0 <= i < |parameters.value| ==> st.values.value[i] == parameters.value[i].1
    ensures st.values.Some? ==> st.query == "EXEC " + procedure + " " + Join(", ", Placeholders(Keys(parameters.value)))
    ensures st.values.None? ==> st.query == "EXEC " + procedure
  {
    if parameters.Some? && |parameters.value| > 0 then
      var placeholders := Join(", ", Placeholders(Keys(parameters.value)));
      Statement("EXEC " + procedure + " " + placeholders, Some(Values(parameters.value)))
    else Statement("EXEC " + procedure, None)
  }

  /** Placeholder `i` of the statement names parameter `i`, and value `i` is
      that parameter's value: the keys and the values are taken in the same
      order. */
  lemma ExecAligned(procedure: string, parameters: Dict<Json>)
    requires parameters != []
    ensures var st := ExecStatement(procedure, Some(parameters));
      var ps := Placeholders(Keys(parameters));
      && st.query == "EXEC " + procedure + " " + Join(", ", ps)
      && st.values.Some? && |ps| == |st.values.value| == |parameters|
      && forall i :: 0 <= i < |parameters| ==>
           ps[i] == "@" + parameters[i].0 + " = ?" && st.values.value[i] == parameters[i].1
  {
  }

  lemma {:induction false} PlaceholderMarks(keys: seq<string>)
    requires forall i :: 0 <= i < |keys| ==> '?' !in keys[i]
    ensures CountChar(Join(", ", Placeholders(keys)), '?') == |keys|
  {
    var ps := Placeholders(keys);
    if |keys| >= 1 {
      CountCharAppend("@" + keys[0] + " = ", "?", '?');
      CountCharAppend("@" + keys[0], " = ", '?');
      CountCharAppend("@", keys[0], '?');
      CountCharAbsent(keys[0], '?');
      assert ps[0] == "@" + keys[0] + " = " + "?";
      if |keys| >= 2 {
        PlaceholderMarks(keys[1..]);
        assert Placeholders(keys[1..]) == ps[1..];
        CountCharAppend(ps[0] + ", ", Join(", ", ps[1..]), '?');
        CountCharAppend(ps[0], ", ", '?');
      }
    }
  }

  /** When neither the procedure name nor a parameter name contains "?", the
      statement has exactly as many "?" placeholders as there are bound values. */
  lemma PlaceholdersMatchValues(procedure: string, parameters: Option<Dict<Json>>)
    requires '?' !in procedure
    requires parameters.Some? ==> forall i :: 0 <= i < |parameters.value| ==> '?' !in parameters.value[i].0
    ensures var st := ExecStatement(procedure, parameters);
      CountChar(st.query, '?') == if st.values.Some? then |st.values.value| else 0
  {
    var st := ExecStatement(procedure, parameters);
    CountCharAbsent("EXEC " + procedure, '?');
    if st.values.Some? {
      var keys := Keys(parameters.value);
      PlaceholderMarks(keys);
      CountCharAbsent("EXEC " + procedure + " ", '?');
      CountCharAppend("EXEC " + procedure + " ", Join(", ", Placeholders(keys)), '?');
    }
  }

  /** What `execute_stored_procedure` returns, given the global connection. The
      driver receives the parameter values exactly when there are some. */
  function ProcedureResult(db: Option<Connection>, procedure: string, parameters: Option<Dict<Json>>,
                           driver: SqlDriver): (r: QueryReport)
    ensures r.procedure == Some(procedure) && r.query == ExecStatement(procedure, parameters).query
    ensures db.None? ==> r.rows == [] && r.error == Some(Str(NoConnectionError))
    ensures db.Some? ==>
      var bound := if parameters.Some? && parameters.value != [] then Some(Values(parameters.value)) else None;
      r == ReportFor(QueryResults(driver(ConnectionString(db.value), r.query, bound)), Some(procedure), r.query)
  {
    var st := ExecStatement(procedure, parameters);
    match db
    case None => ExceptionReport(NoConnectionError, Some(procedure), st.query)
    case Some(conn) =>
      assert st.values.Some? ==> st.values.value == Values(parameters.value);
      ReportFor(RunQuery(conn, st.query, st.values, driver), Some(procedure), st.query)
  }

  // ---------------------------------------------------------------- the registry

  /** A function decorated with `ai_function`, by its name and description. */
  datatype AiFunction = AiFunction(name: string, description: string)

  const SelectFromTableFunction := AiFunction("select_from_table",
    "Execute a SELECT query on a specified table with optional filtering, sorting, and limit.")
  const GetTablesFunction := AiFunction("get_tables", "Get a list of all tables in the database.")
  const ExecuteStoredProcedureFunction := AiFunction("execute_stored_procedure",
    "Execute a stored procedure with optional parameters.")

  /** The module's globals: the connection `db` and `_MCP_TOOLS_REGISTRY`. */
  class ToolModule {
    var db: Option<Connection>
    var registry: seq<AiFunction>

    /** Importing the module: no connection, and the three tools registered in
        the order they are defined. */
    constructor ()
      ensures db == None
      ensures registry == [SelectFromTableFunction, GetTablesFunction, ExecuteStoredProcedureFunction]
    {
      db := None;
      registry := [];
      registry := registry + [SelectFromTableFunction];
      registry := registry + [GetTablesFunction];
      registry := registry + [ExecuteStoredProcedureFunction];
    }

    /** `get_all_mcp_tools(config)`: sets the global connection and returns a
        copy of the registry, which it leaves as it was. */
    method GetAllMcpTools(config: DatabaseConfig) returns (tools: seq<AiFunction>)
      modifies this`db
      ensures db == Some(Connection(config))
      ensures tools == registry
    {
      db := Some(Connection(config));
      tools := registry;
    }

    /** `select_from_table(table_name, limit, condition, order_by)` */
    method SelectFromTable(table: string, limit: Option<int>, condition: Option<string>, orderBy: Option<string>,
                           driver: SqlDriver) returns (r: Json)
      ensures r == ReportJson(SelectResult(db, table, limit, condition, orderBy, driver))
    {
      var query := BuildSelectQuery(table, limit, condition, orderBy);
      if db.None? {
        r := ReportJson(ExceptionReport(NoConnectionError, None, query));
        return;
      }
      var results := ExecuteQuery(db.value, query, None, driver);
      r := ReportJson(ReportFor(results, None, query));
    }

    /** `get_tables()` */
    method GetTables(driver: SqlDriver) returns (r: Json)
      ensures r == TablesJson(GetTablesResult(db, driver))
    {
      if db.None? {
        r := TablesJson(TablesReport([], Some(Str(NoConnectionError))));
        return;
      }
      var results := ExecuteQuery(db.value, TablesQuery, None, driver);
      r := TablesJson(TablesFor(results));
    }

    /** `execute_stored_procedure(procedure_name, parameters)` */
    method ExecuteStoredProcedure(procedure: string, parameters: Option<Dict<Json>>, driver: SqlDriver)
      returns (r: Json)
      ensures r == ReportJson(ProcedureResult(db, procedure, parameters, driver))
    {
      var st := ExecStatement(procedure, parameters);
      if db.None? {
        r := ReportJson(ExceptionReport(NoConnectionError, Some(procedure), st.query));
        return;
      }
      var results := ExecuteQuery(db.value, st.query, st.values, driver);
      r := ReportJson(ReportFor(results, Some(procedure), st.query));
    }
  }
}
