/**
 * The part shared by the table matchers: building fully-qualified table
 * names, stripping quotes from name patterns, listing the tables that match
 * a pattern into the matcher's `tables` list, and dropping a list of tables.
 *
 * The database is reached through a `Database` value that stands for the
 * container and its JDBC driver during one evaluation: the URL the
 * container reports, whether connecting fails, what the metadata query
 * returns for given patterns, and which statements fail.
 */
module JdbcMatchers {
  import opened JavaLang

  /** An exception that escapes a matcher. */
  datatype Thrown = AssertionFailedError(message: string) | NullPointerException

  /** One row of `DatabaseMetaData.getTables`: TABLE_CAT and TABLE_SCHEM (nullable) and TABLE_NAME. */
  datatype TableRow = TableRow(catalog: Option<string>, schema: Option<string>, name: string)

  /** The patterns passed to `DatabaseMetaData.getTables`. */
  datatype TableQuery = TableQuery(catalog: string, schemaPattern: string, tableNamePattern: string)

  /**
   * What reading a metadata result set yields: the rows read before it
   * ended, and the message of the `SQLException` that ended it, if one did
   * (raised by the query itself, by `next`, by a column read or by `close`).
   */
  datatype ResultSet = ResultSet(rows: seq<TableRow>, failure: Option<string>)

  /** The container and its JDBC driver, as one matcher evaluation sees them. */
  datatype Database = Database(
    url: string,                          // container.getJdbcUrl()
    connectFailure: Option<string>,       // message if createConnection() throws
    getTables: TableQuery -> ResultSet,   // the metadata query
    statementFailure: Option<string>,     // message if createStatement() throws
    execute: string -> Option<string>)    // message if Statement.execute throws for this SQL

  /** A piece of a Hamcrest description: `appendText`, or `appendList` of the given values. */
  datatype DescriptionPart =
    | AppendText(text: string)
    | AppendList(start: string, separator: string, end: string, values: seq<string>)

  /** The statements `dropTables` executed, and how it completed. */
  datatype DropRun = DropRun(executed: seq<string>, outcome: Outcome<Thrown>)

  /** The `tables` list after `listTables`, and how it completed. */
  datatype ListingRun = ListingRun(tables: seq<string>, outcome: Outcome<Thrown>)

  // ---------------------------------------------------------------------------
  // Table names

  /** A catalog or schema followed by its separator, or nothing when it is blank. */
  function Qualifier(part: Option<string>): (q: string)
    ensures IsNotBlank(part) ==> q == part.value + "."
    ensures !IsNotBlank(part) ==> q == ""
  {
    if IsNotBlank(part) then part.value + "." else ""
  }

  /**
   * `normalizeTableName`: the catalog and a dot when the catalog is not
   * blank, then the schema and a dot when the schema is not blank, then the
   * table name.
   */
  function NormalizeTableName(catalog: Option<string>, schema: Option<string>, table: Option<string>): (fqn: string)
    ensures |fqn| == |Stringify(table)|
                     + (if IsNotBlank(catalog) then |catalog.value| + 1 else 0)
                     + (if IsNotBlank(schema) then |schema.value| + 1 else 0)
    ensures fqn[|fqn| - |Stringify(table)|..] == Stringify(table)
    ensures IsNotBlank(catalog) ==> fqn[..|catalog.value| + 1] == catalog.value + "."
  {
    var c := Qualifier(catalog);
    var s := Qualifier(schema);
    var r := c + s + Stringify(table);
    assert r[|r| - |Stringify(table)|..] == Stringify(table);
    assert IsNotBlank(catalog) ==> r[..|c|] == c;
    r
  }

  /** The parts, dot-joined. */
  function JoinWithDots(parts: seq<string>): string
    requires |parts| >= 1
  {
    if |parts| == 1 then parts[0] else parts[0] + "." + JoinWithDots(parts[1..])
  }

  /** The values of the parts that are not blank, in order. */
  function NonBlankParts(parts: seq<Option<string>>): (r: seq<string>)
    ensures |r| <= |parts|
  {
    if parts == [] then []
    else (if IsNotBlank(parts[0]) then [parts[0].value] else []) + NonBlankParts(parts[1..])
  }

  /** The schema part on its own: its qualifier followed by the table. */
  lemma {:induction false} JoinSchemaAndTable(schema: Option<string>, t: string)
    ensures JoinWithDots(NonBlankParts([schema]) + [t]) == Qualifier(schema) + t
  {
    assert NonBlankParts([schema]) == (if IsNotBlank(schema) then [schema.value] else []) + NonBlankParts([]);
    if IsNotBlank(schema) {
      var tail := [schema.value] + [t];
      assert tail[1..] == [t];
    } else {
      assert NonBlankParts([schema]) + [t] == [t];
    }
  }

  /** With a non-blank catalog, the catalog comes first and is followed by a dot. */
  lemma {:induction false} JoinWithCatalog(catalog: string, schema: Option<string>, t: string)
    requires IsNotBlank(Some(catalog))
    ensures JoinWithDots(NonBlankParts([Some(catalog), schema]) + [t]) == catalog + "." + (Qualifier(schema) + t)
  {
    var tail := NonBlankParts([schema]) + [t];
    var parts := NonBlankParts([Some(catalog), schema]) + [t];
    JoinSchemaAndTable(schema, t);
    assert [Some(catalog), schema][1..] == [schema];
    assert parts == [catalog] + tail;
    assert parts[1..] == tail;
  }

  /** With a blank catalog, only the schema part is left. */
  lemma {:induction false} JoinWithoutCatalog(catalog: Option<string>, schema: Option<string>, t: string)
    requires !IsNotBlank(catalog)
    ensures JoinWithDots(NonBlankParts([catalog, schema]) + [t]) == Qualifier(schema) + t
  {
    JoinSchemaAndTable(schema, t);
    assert [catalog, schema][1..] == [schema];
    assert NonBlankParts([catalog, schema]) == NonBlankParts([schema]);
  }

  /** The normalized name is the non-blank catalog and schema and the table, joined by dots. */
  lemma {:induction false} NormalizeTableNameJoins(catalog: Option<string>, schema: Option<string>, table: Option<string>)
    ensures NormalizeTableName(catalog, schema, table)
         == JoinWithDots(NonBlankParts([catalog, schema]) + [Stringify(table)])
  {
    var t := Stringify(table);
    if IsNotBlank(catalog) {
      JoinWithCatalog(catalog.value, schema, t);
      assert Qualifier(catalog) + Qualifier(schema) + t == catalog.value + "." + (Qualifier(schema) + t);
    } else {
      JoinWithoutCatalog(catalog, schema, t);
    }
  }

  /** Two examples: a catalog without a schema, and a bare table. */
  lemma NormalizeTableNameExamples()
    ensures NormalizeTableName(Some("app"), None, Some("users")) == "app.users"
    ensures NormalizeTableName(None, None, Some("users")) == "users"
  {
    assert IsNotBlank(Some("app")) by {
      assert !IsWhitespace("app"[0]);
    }
  }

  // ---------------------------------------------------------------------------
  // Quote stripping

  /** One of the three quote characters. */
  predicate IsQuote(c: char) {
    c == '"' || c == '\'' || c == '`'
  }

  /** A character that Java's regular-expression `.` does not match. */
  predicate IsLineTerminator(c: char) {
    c == '\n' || c == '\r' || c == '\U{85}' || c == '\U{2028}' || c == '\U{2029}'
  }

  /**
   * The name matches the regular expression `("|'|`).*("|'|`)` in full: it
   * starts and ends with a quote character (not necessarily the same one),
   * and no line terminator lies between them.
   */
  predicate IsQuoted(name: string) {
    && |name| >= 2
    && IsQuote(name[0])
    && IsQuote(name[|name| - 1])
    && forall i :: 1 <= i < |name| - 1 ==> !IsLineTerminator(name[i])
  }

  /** `stripQuotes`: drops the first and last character of a quoted name; any other name is kept. */
  function StripQuotes(name: string): (r: string)
    ensures IsQuoted(name) ==> name == [name[0]] + r + [name[|name| - 1]]
    ensures !IsQuoted(name) ==> r == name
  {
    if IsQuoted(name) then name[1..|name| - 1] else name
  }

  /** Quoting a name without line terminators and stripping it gives the name back: one layer comes off. */
  lemma StripQuotesUnquotes(open: char, body: string, close: char)
    requires IsQuote(open) && IsQuote(close)
    requires forall i :: 0 <= i < |body| ==> !IsLineTerminator(body[i])
    ensures StripQuotes([open] + body + [close]) == body
  {
    var q := [open] + body + [close];
    forall i | 1 <= i < |q| - 1 ensures !IsLineTerminator(q[i]) {
      assert q[i] == body[i - 1];
    }
    assert q[1..|q| - 1] == body;
  }

  /** Only one layer is stripped; a name with a line break inside is left alone. */
  lemma StripQuotesExamples()
    ensures StripQuotes("\"users\"") == "users"
    ensures StripQuotes("users") == "users"
    ensures StripQuotes("''t''") == "'t'"
    ensures StripQuotes("'a\nb'") == "'a\nb'"
    ensures StripQuotes("\"") == "\""
  {
    assert "\"users\"" == ['"'] + "users" + ['"'];
    StripQuotesUnquotes('"', "users", '"');
    assert "''t''" == ['\''] + "'t'" + ['\''];
    StripQuotesUnquotes('\'', "'t'", '\'');
    assert !IsQuoted("'a\nb'") by {
      assert IsLineTerminator("'a\nb'"[2]);
    }
    assert !IsQuoted("users") by {
      assert !IsQuote("users"[0]);
    }
  }

  // ---------------------------------------------------------------------------
  // Listing

  /** The fully-qualified name of a metadata row. */
  function RowName(row: TableRow): string {
    NormalizeTableName(row.catalog, row.schema, Some(row.name))
  }

  /** The query `listTables` sends for non-null patterns: each pattern with its quotes stripped. */
  function QueryFor(catalog: string, schema: string, table: string): TableQuery {
    TableQuery(StripQuotes(catalog), StripQuotes(schema), StripQuotes(table))
  }

  /** The message of a failure to connect, as both matchers report it. */
  function ConnectFailureMessage(url: string, message: string): string {
    "Unable to connect to database '" + url + "': " + message
  }

  function ListingFailureMessage(pattern: string, url: string, message: string): string {
    "unable to extract tables matching '" + pattern + "' at '" + url + "': " + message
  }

  /**
   * What `listTables` leaves in `tables` and how it completes. The list is
   * cleared first. A null catalog, schema or table pattern makes
   * `stripQuotes` throw. Otherwise every row read is added, by its
   * normalized name, and a failure of the result set is reported with the
   * unstripped patterns and the URL.
   */
  function Listing(db: Database, catalog: Option<string>, schema: Option<string>, table: Option<string>): (r: ListingRun)
    ensures r.outcome == Fail(NullPointerException) <==> catalog.None? || schema.None? || table.None?
    ensures r.outcome == Fail(NullPointerException) ==> r.tables == []
    ensures r.outcome != Fail(NullPointerException) ==>
      var rs := db.getTables(QueryFor(catalog.value, schema.value, table.value));
      && |r.tables| == |rs.rows|
      && (forall k :: 0 <= k < |rs.rows| ==> r.tables[k] == RowName(rs.rows[k]))
      && (r.outcome.Pass? <==> rs.failure.None?)
  {
    if catalog.None? || schema.None? || table.None? then
      ListingRun([], Fail(NullPointerException))
    else
      var rs := db.getTables(QueryFor(catalog.value, schema.value, table.value));
      var names := seq(|rs.rows|, k requires 0 <= k < |rs.rows| => RowName(rs.rows[k]));
      match rs.failure
      case None => ListingRun(names, Pass)
      case Some(m) =>
        ListingRun(names, Fail(AssertionFailedError(
          ListingFailureMessage(NormalizeTableName(catalog, schema, table), db.url, m))))
  }

  /** A failed listing names the pattern as given, quotes and all, and the URL. */
  lemma ListingFailureNamesPattern(db: Database, catalog: string, schema: string, table: string)
    requires db.getTables(QueryFor(catalog, schema, table)).failure.Some?
    ensures Listing(db, Some(catalog), Some(schema), Some(table)).outcome
         == Fail(AssertionFailedError(ListingFailureMessage(
              NormalizeTableName(Some(catalog), Some(schema), Some(table)), db.url,
              db.getTables(QueryFor(catalog, schema, table)).failure.value)))
  {
  }

  /** A quoted table pattern lists the same tables as the bare one. */
  lemma {:induction false} ListingIgnoresQuotes(db: Database, catalog: string, schema: string, open: char, table: string, close: char)
    requires IsQuote(open) && IsQuote(close)
    requires forall i :: 0 <= i < |table| ==> !IsLineTerminator(table[i])
    requires !IsQuoted(table)
    ensures Listing(db, Some(catalog), Some(schema), Some([open] + table + [close])).tables
         == Listing(db, Some(catalog), Some(schema), Some(table)).tables
    ensures Listing(db, Some(catalog), Some(schema), Some([open] + table + [close])).outcome.Pass?
         == Listing(db, Some(catalog), Some(schema), Some(table)).outcome.Pass?
  {
    StripQuotesUnquotes(open, table, close);
    assert QueryFor(catalog, schema, [open] + table + [close]) == QueryFor(catalog, schema, table);
  }

  // ---------------------------------------------------------------------------
  // Dropping

  /** The statement that drops one table. */
  function DropStatement(fqn: string): string {
    "DROP TABLE IF EXISTS " + fqn
  }

  /** The drop statements for the tables, in order. */
  function DropStatements(fqns: seq<string>): (r: seq<string>)
    ensures |r| == |fqns|
    ensures forall k :: 0 <= k < |fqns| ==> r[k] == DropStatement(fqns[k])
  {
    seq(|fqns|, k requires 0 <= k < |fqns| => DropStatement(fqns[k]))
  }

  /** The statement for `fqn` goes through. */
  predicate Drops(db: Database, fqn: string) {
    db.execute(DropStatement(fqn)).None?
  }

  function DropFailureMessage(fqn: string, url: string, message: string): string {
    "Unable to drop table '" + fqn + "' at '" + url + "': " + message
  }

  function StatementFailureMessage(url: string, message: string): string {
    "Unable to create statement at '" + url + "': " + message
  }

  /** Executing the drops one after the other on one statement, giving up at the first that fails. */
  function DropBatch(db: Database, fqns: seq<string>): (r: DropRun)
    ensures |r.executed| <= |fqns|
    ensures r.outcome.Pass? ==> |r.executed| == |fqns|
    ensures r.outcome.Fail? ==> |r.executed| >= 1
  {
    if fqns == [] then DropRun([], Pass)
    else
      var stmt := DropStatement(fqns[0]);
      match db.execute(stmt)
      case Some(m) => DropRun([stmt], Fail(AssertionFailedError(DropFailureMessage(fqns[0], db.url, m))))
      case None =>
        var rest := DropBatch(db, fqns[1..]);
        DropRun([stmt] + rest.executed, rest.outcome)
  }

  /** The batch succeeds exactly when every drop does, and then it has executed one drop per table, in order. */
  lemma {:induction false} DropBatchSucceeds(db: Database, fqns: seq<string>)
    ensures DropBatch(db, fqns).outcome.Pass? <==> forall k :: 0 <= k < |fqns| ==> Drops(db, fqns[k])
    ensures DropBatch(db, fqns).outcome.Pass? ==> DropBatch(db, fqns).executed == DropStatements(fqns)
  {
    if fqns != [] {
      DropBatchSucceeds(db, fqns[1..]);
      var r := DropBatch(db, fqns);
      if Drops(db, fqns[0]) {
        assert forall k :: 1 <= k < |fqns| ==> fqns[k] == fqns[1..][k - 1];
        if r.outcome.Pass? {
          assert DropStatements(fqns) == [DropStatement(fqns[0])] + DropStatements(fqns[1..]);
        }
      }
    }
  }

  /**
   * A failing batch stopped at the first failing drop: the statements
   * executed are the drops of a prefix of the list, all but the last
   * succeeded, and the error names the last one's table and its message.
   */
  lemma {:induction false} DropBatchStopsAtFirstFailure(db: Database, fqns: seq<string>)
    requires DropBatch(db, fqns).outcome.Fail?
    ensures var r := DropBatch(db, fqns);
      var k := |r.executed| - 1;
      && r.executed == DropStatements(fqns[..k + 1])
      && (forall j :: 0 <= j < k ==> Drops(db, fqns[j]))
      && db.execute(DropStatement(fqns[k])).Some?
      && r.outcome.error == AssertionFailedError(DropFailureMessage(fqns[k], db.url, db.execute(DropStatement(fqns[k])).value))
  {
    var r := DropBatch(db, fqns);
    if Drops(db, fqns[0]) {
      var tail := fqns[1..];
      DropBatchStopsAtFirstFailure(db, tail);
      var rt := DropBatch(db, tail);
      var k := |r.executed| - 1;
      assert |rt.executed| - 1 == k - 1;
      assert fqns[k] == tail[k - 1];
      assert fqns[..k + 1] == [fqns[0]] + tail[..k];
      assert DropStatements(fqns[..k + 1]) == [DropStatement(fqns[0])] + DropStatements(tail[..k]);
      forall j | 0 <= j < k ensures Drops(db, fqns[j]) {
        if j > 0 { assert fqns[j] == tail[j - 1]; }
      }
    } else {
      assert fqns[..1] == [fqns[0]];
    }
  }

  /**
   * Conversely, when the drops before position `i` go through and the one
   * at `i` fails, the batch executes exactly the drops up to `i` and
   * reports that failure.
   */
  lemma {:induction false} DropBatchFailsAt(db: Database, fqns: seq<string>, i: nat)
    requires i < |fqns|
    requires forall k :: 0 <= k < i ==> Drops(db, fqns[k])
    requires !Drops(db, fqns[i])
    ensures DropBatch(db, fqns)
         == DropRun(DropStatements(fqns[..i + 1]),
                    Fail(AssertionFailedError(DropFailureMessage(fqns[i], db.url, db.execute(DropStatement(fqns[i])).value))))
  {
    if i == 0 {
      assert fqns[..1] == [fqns[0]];
    } else {
      var tail := fqns[1..];
      forall k | 0 <= k < i - 1 ensures Drops(db, tail[k]) {
        assert tail[k] == fqns[k + 1];
      }
      assert tail[i - 1] == fqns[i];
      DropBatchFailsAt(db, tail, i - 1);
      assert fqns[..i + 1] == [fqns[0]] + tail[..i];
      assert DropStatements(fqns[..i + 1]) == [DropStatement(fqns[0])] + DropStatements(tail[..i]);
    }
  }

  /** The drop statements of a prefix one table longer. */
  lemma DropStatementsExtend(fqns: seq<string>, i: nat)
    requires i < |fqns|
    ensures DropStatements(fqns[..i + 1]) == DropStatements(fqns[..i]) + [DropStatement(fqns[i])]
  {
    assert fqns[..i + 1] == fqns[..i] + [fqns[i]];
  }

  /**
   * What `dropTables` does: nothing for an empty list; otherwise it opens a
   * statement, whose failure is reported with the URL, and runs the batch.
   */
  function DropTablesRun(db: Database, fqns: seq<string>): (r: DropRun)
    ensures fqns == [] ==> r == DropRun([], Pass)
    ensures fqns != [] && db.statementFailure.Some? ==>
      r == DropRun([], Fail(AssertionFailedError(StatementFailureMessage(db.url, db.statementFailure.value))))
  {
    if fqns == [] then DropRun([], Pass)
    else match db.statementFailure
      case Some(m) => DropRun([], Fail(AssertionFailedError(StatementFailureMessage(db.url, m))))
      case None => DropBatch(db, fqns)
  }

  // ---------------------------------------------------------------------------
  // The matcher state

  /**
   * The state and operations shared by the two table matchers: the
   * container they were built for and the list of tables found by the most
   * recent listing. Each matcher class holds one of these.
   */
  class AbstractJdbcMatcher<C> {
    const container: C
    var tables: seq<string>

    constructor (container: C)
      ensures this.container == container && tables == []
    {
      this.container := container;
      tables := [];
    }

    /** `listTables`: refills `tables` from the metadata rows for the patterns. */
    method ListTables(db: Database, catalogName: Option<string>, schemaName: Option<string>, tableName: Option<string>)
      returns (outcome: Outcome<Thrown>)
      modifies this`tables
      ensures ListingRun(tables, outcome) == Listing(db, catalogName, schemaName, tableName)
    {
      tables := [];
      if catalogName.None? || schemaName.None? || tableName.None? {
        return Fail(NullPointerException);
      }
      var rs := db.getTables(TableQuery(StripQuotes(catalogName.value), StripQuotes(schemaName.value), StripQuotes(tableName.value)));
      var i := 0;
      while i < |rs.rows|
        invariant 0 <= i <= |rs.rows|
        invariant |tables| == i
        invariant forall k :: 0 <= k < i ==> tables[k] == RowName(rs.rows[k])
      {
        var row := rs.rows[i];
        tables := tables + [NormalizeTableName(row.catalog, row.schema, Some(row.name))];
        i := i + 1;
      }
      ghost var expected := Listing(db, catalogName, schemaName, tableName);
      assert tables == expected.tables;
      if rs.failure.Some? {
        outcome := Fail(AssertionFailedError(ListingFailureMessage(
          NormalizeTableName(catalogName, schemaName, tableName), db.url, rs.failure.value)));
      } else {
        outcome := Pass;
      }
    }

    /** `dropTables`: one drop per table, in order, stopping at the first failure. */
    method DropTables(db: Database, fqns: seq<string>) returns (run: DropRun)
      ensures run == DropTablesRun(db, fqns)
    {
      if fqns == [] {
        return DropRun([], Pass);
      }
      if db.statementFailure.Some? {
        return DropRun([], Fail(AssertionFailedError(StatementFailureMessage(db.url, db.statementFailure.value))));
      }
      var executed: seq<string> := [];
      var i := 0;
      while i < |fqns|
        invariant 0 <= i <= |fqns|
        invariant executed == DropStatements(fqns[..i])
        invariant forall k :: 0 <= k < i ==> Drops(db, fqns[k])
      {
        var stmt := DropStatement(fqns[i]);
        DropStatementsExtend(fqns, i);
        executed := executed + [stmt];
        var failure := db.execute(stmt);
        if failure.Some? {
          DropBatchFailsAt(db, fqns, i);
          return DropRun(executed, Fail(AssertionFailedError(DropFailureMessage(fqns[i], db.url, failure.value))));
        }
        i := i + 1;
      }
      DropBatchSucceeds(db, fqns);
      assert fqns[..i] == fqns;
      return DropRun(executed, Pass);
    }
  }
}
