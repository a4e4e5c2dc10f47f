/**
 * The table-exists matcher. It lists the tables that match its patterns
 * into `tables`, but its result comes from a flag that nothing sets, so it
 * never reports a table as found.
 */
module TableExists {
  import opened JavaLang
  import opened JdbcMatchers

  /** The `tables` list and the result of one `matchesSafely`. */
  datatype Evaluation = Evaluation(tables: seq<string>, result: Result<bool, Thrown>)

  /**
   * One evaluation, starting from the list `previous`: a failed connection
   * is reported before anything is listed; otherwise the tables are listed,
   * a listing failure escapes, and the result is the untouched flag.
   */
  function Evaluate(db: Database, previous: seq<string>, catalog: Option<string>, schema: Option<string>,
                    table: Option<string>): (e: Evaluation)
    ensures e.result.Success? ==> !e.result.value
    ensures db.connectFailure.Some? ==>
      e == Evaluation(previous, Failure(AssertionFailedError(ConnectFailureMessage(db.url, db.connectFailure.value))))
    ensures db.connectFailure.None? ==>
      e.tables == Listing(db, catalog, schema, table).tables
      && (e.result.Success? <==> Listing(db, catalog, schema, table).outcome.Pass?)
    ensures db.connectFailure.None? && Listing(db, catalog, schema, table).outcome.Fail? ==>
      e.result == Failure(Listing(db, catalog, schema, table).outcome.error)
  {
    var found := false;
    match db.connectFailure
    case Some(m) => Evaluation(previous, Failure(AssertionFailedError(ConnectFailureMessage(db.url, m))))
    case None =>
      var listing := Listing(db, catalog, schema, table);
      if listing.outcome.Fail? then Evaluation(listing.tables, Failure(listing.outcome.error))
      else Evaluation(listing.tables, Success(found))
  }

  /** Even when the listing finds tables, the matcher reports none found. */
  lemma FoundTablesStillNotFound(db: Database, previous: seq<string>, catalog: string, schema: string, table: string)
    requires db.connectFailure.None?
    requires var rs := db.getTables(QueryFor(catalog, schema, table)); rs.rows != [] && rs.failure.None?
    ensures var e := Evaluate(db, previous, Some(catalog), Some(schema), Some(table));
      e.tables != [] && e.result == Success(false)
  {
  }

  /** The matcher object: the patterns, fixed at construction, and the shared matcher state. */
  class TableExistsMatcher<C> {
    const base: AbstractJdbcMatcher<C>
    const catalogName: Option<string>
    const schemaName: Option<string>
    const tableName: Option<string>

    constructor (container: C, catalogName: Option<string>, schemaName: Option<string>, tableName: Option<string>)
      ensures fresh(base) && base.container == container && base.tables == []
      ensures this.catalogName == catalogName && this.schemaName == schemaName && this.tableName == tableName
    {
      base := new AbstractJdbcMatcher(container);
      this.catalogName := catalogName;
      this.schemaName := schemaName;
      this.tableName := tableName;
    }

    /** `describeTo`: the normalized name of the patterns. */
    function DescribeTo(): (d: seq<DescriptionPart>)
      ensures d == [AppendText("Table " + NormalizeTableName(catalogName, schemaName, tableName))]
    {
      [AppendText("Table " + NormalizeTableName(catalogName, schemaName, tableName))]
    }

    /**
     * `describeMismatchSafely`: unless the inherited `matches` check on the
     * table name succeeds, the normalized name and the container's URL.
     */
    function DescribeMismatchSafely(url: string, nameMatches: bool): (d: seq<DescriptionPart>)
      ensures d != [] <==> !nameMatches
      ensures d != [] ==>
        d == [AppendText("No tables match '" + NormalizeTableName(catalogName, schemaName, tableName) + "' at '" + url + "'")]
    {
      if !nameMatches then
        [AppendText("No tables match '" + NormalizeTableName(catalogName, schemaName, tableName) + "' at '" + url + "'")]
      else
        []
    }

    /** `matchesSafely`: refreshes `tables` from the metadata and reports not found. */
    method MatchesSafely(db: Database) returns (result: Result<bool, Thrown>)
      modifies base
      ensures Evaluation(base.tables, result) == Evaluate(db, old(base.tables), catalogName, schemaName, tableName)
    {
      var found := false;
      if db.connectFailure.Some? {
        return Failure(AssertionFailedError(ConnectFailureMessage(db.url, db.connectFailure.value)));
      }
      var listed := base.ListTables(db, catalogName, schemaName, tableName);
      if listed.Fail? {
        return Failure(listed.error);
      }
      return Success(found);
    }
  }
}
