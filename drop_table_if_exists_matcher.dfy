/**
 * The drop-table-if-exists precondition: lists the tables that match a
 * catalog, schema and table pattern and drops them. In strict mode it drops
 * only when exactly one table matches; with several matches it drops
 * nothing and describes the matches instead. Either way it reports success
 * whenever it completes.
 */
module DropTableIfExists {
  import opened JavaLang
  import opened JdbcMatchers

  /** Whether a listing of `count` tables is dropped. */
  predicate ShouldDrop(count: nat, strict: bool) {
    count == 1 || (count > 1 && !strict)
  }

  /** Non-strict mode drops any non-empty match; strict mode only a single one. */
  lemma ShouldDropByMode(count: nat)
    ensures ShouldDrop(count, false) <==> count > 0
    ensures ShouldDrop(count, true) <==> count == 1
  {
  }

  /** The `tables` list, the statements executed and the result of one `matchesSafely`. */
  datatype Evaluation = Evaluation(tables: seq<string>, executed: seq<string>, result: Result<bool, Thrown>)

  /**
   * One evaluation, starting from the list `previous`: a failed connection
   * is reported before anything is listed; otherwise the tables are listed
   * and, when `ShouldDrop` says so, dropped.
   */
  function Evaluate(db: Database, previous: seq<string>, catalog: Option<string>, schema: Option<string>,
                    table: Option<string>, strict: bool): (e: Evaluation)
    ensures e.result.Success? ==> e.result.value
    ensures db.connectFailure.Some? ==>
      e == Evaluation(previous, [], Failure(AssertionFailedError(ConnectFailureMessage(db.url, db.connectFailure.value))))
    ensures db.connectFailure.None? ==> e.tables == Listing(db, catalog, schema, table).tables
    ensures !ShouldDrop(|e.tables|, strict) ==> e.executed == []
    ensures db.connectFailure.None? && Listing(db, catalog, schema, table).outcome.Fail? ==>
      e.executed == [] && e.result == Failure(Listing(db, catalog, schema, table).outcome.error)
    ensures db.connectFailure.None? && Listing(db, catalog, schema, table).outcome.Pass? ==>
      var run := DropTablesRun(db, e.tables);
      && (ShouldDrop(|e.tables|, strict) ==> e.executed == run.executed)
      && (ShouldDrop(|e.tables|, strict) && run.outcome.Fail? ==> e.result == Failure(run.outcome.error))
      && (!ShouldDrop(|e.tables|, strict) || run.outcome.Pass? ==> e.result == Success(true))
  {
    match db.connectFailure
    case Some(m) => Evaluation(previous, [], Failure(AssertionFailedError(ConnectFailureMessage(db.url, m))))
    case None =>
      var listing := Listing(db, catalog, schema, table);
      if listing.outcome.Fail? then
        Evaluation(listing.tables, [], Failure(listing.outcome.error))
      else if ShouldDrop(|listing.tables|, strict) then
        var run := DropTablesRun(db, listing.tables);
        Evaluation(listing.tables, run.executed, if run.outcome.Fail? then Failure(run.outcome.error) else Success(true))
      else
        Evaluation(listing.tables, [], Success(true))
  }

  /** The listing completed and nothing failed before the drops. */
  predicate ListedCleanly(db: Database, catalog: Option<string>, schema: Option<string>, table: Option<string>) {
    db.connectFailure.None? && Listing(db, catalog, schema, table).outcome.Pass? && db.statementFailure.None?
  }

  /** Non-strict mode drops every listed table, in listing order, when the drops go through. */
  lemma {:induction false} NonStrictDropsEveryMatch(db: Database, previous: seq<string>,
                                                    catalog: Option<string>, schema: Option<string>, table: Option<string>)
    requires ListedCleanly(db, catalog, schema, table)
    requires var t := Listing(db, catalog, schema, table).tables; forall k :: 0 <= k < |t| ==> Drops(db, t[k])
    ensures var e := Evaluate(db, previous, catalog, schema, table, false);
      e.executed == DropStatements(e.tables) && e.result == Success(true)
  {
    DropBatchSucceeds(db, Listing(db, catalog, schema, table).tables);
  }

  /** Strict mode with more than one match executes nothing and still succeeds. */
  lemma StrictSkipsSeveralMatches(db: Database, previous: seq<string>,
                                  catalog: Option<string>, schema: Option<string>, table: Option<string>)
    requires db.connectFailure.None? && Listing(db, catalog, schema, table).outcome.Pass?
    requires |Listing(db, catalog, schema, table).tables| > 1
    ensures Evaluate(db, previous, catalog, schema, table, true).executed == []
    ensures Evaluate(db, previous, catalog, schema, table, true).result == Success(true)
  {
  }

  /** Strict mode with exactly one match drops that one table. */
  lemma {:induction false} StrictDropsSingleMatch(db: Database, previous: seq<string>,
                                                  catalog: Option<string>, schema: Option<string>, table: Option<string>)
    requires ListedCleanly(db, catalog, schema, table)
    requires |Listing(db, catalog, schema, table).tables| == 1
    requires Drops(db, Listing(db, catalog, schema, table).tables[0])
    ensures var e := Evaluate(db, previous, catalog, schema, table, true);
      e.executed == [DropStatement(e.tables[0])] && e.result == Success(true)
  {
    DropBatchSucceeds(db, Listing(db, catalog, schema, table).tables);
  }

  /**
   * When a drop fails, the evaluation stops there: the drops up to and
   * including the failing one were executed, and the failure escapes as
   * the result, naming that table.
   */
  lemma {:induction false} DropFailureEscapes(db: Database, previous: seq<string>, catalog: Option<string>,
                                              schema: Option<string>, table: Option<string>, strict: bool, i: nat)
    requires ListedCleanly(db, catalog, schema, table)
    requires var t := Listing(db, catalog, schema, table).tables;
      && ShouldDrop(|t|, strict) && i < |t|
      && (forall k :: 0 <= k < i ==> Drops(db, t[k])) && !Drops(db, t[i])
    ensures var e := Evaluate(db, previous, catalog, schema, table, strict);
      && e.executed == DropStatements(e.tables[..i + 1])
      && e.result == Failure(AssertionFailedError(
           DropFailureMessage(e.tables[i], db.url, db.execute(DropStatement(e.tables[i])).value)))
  {
    DropBatchFailsAt(db, Listing(db, catalog, schema, table).tables, i);
  }

  /** Without a match no statement runs, in either mode. */
  lemma NoMatchNoDrop(db: Database, previous: seq<string>, catalog: Option<string>, schema: Option<string>,
                      table: Option<string>, strict: bool)
    requires db.connectFailure.None? && Listing(db, catalog, schema, table).tables == []
    ensures Evaluate(db, previous, catalog, schema, table, strict).executed == []
  {
  }

  /** The precondition object: the patterns and the mode, fixed at construction, and the shared matcher state. */
  class DropTableIfExistsMatcher<C> {
    const base: AbstractJdbcMatcher<C>
    const catalogName: Option<string>
    const schemaName: Option<string>
    const tableName: Option<string>
    const strict: bool

    constructor (container: C, catalogName: Option<string>, schemaName: Option<string>, tableName: Option<string>,
                 strict: bool)
      ensures fresh(base) && base.container == container && base.tables == []
      ensures this.catalogName == catalogName && this.schemaName == schemaName && this.tableName == tableName
      ensures this.strict == strict
    {
      base := new AbstractJdbcMatcher(container);
      this.catalogName := catalogName;
      this.schemaName := schemaName;
      this.tableName := tableName;
      this.strict := strict;
    }

    /** `describeMismatchSafely`: in strict mode with several matches, the count and the matched names. */
    function DescribeMismatchSafely(): (d: seq<DescriptionPart>)
      reads base
      ensures d != [] <==> strict && |base.tables| > 1
      ensures d != [] ==>
        d == [AppendText("Too many matches " + NatToString(|base.tables|)), AppendList(" - ", "\n - ", "\n", base.tables)]
    {
      if strict && |base.tables| > 1 then
        [AppendText("Too many matches " + NatToString(|base.tables|)), AppendList(" - ", "\n - ", "\n", base.tables)]
      else
        []
    }

    /** `describeTo`: the table pattern as given, not the normalized name. */
    function DescribeTo(): (d: seq<DescriptionPart>)
      ensures d == [AppendText("Table " + Stringify(tableName))]
    {
      [AppendText("Table " + Stringify(tableName))]
    }

    /** `matchesSafely`: lists the matching tables into `tables` and drops them when the mode allows. */
    method MatchesSafely(db: Database) returns (result: Result<bool, Thrown>, executed: seq<string>)
      modifies base
      ensures Evaluation(base.tables, executed, result)
           == Evaluate(db, old(base.tables), catalogName, schemaName, tableName, strict)
    {
      var success := true;
      if db.connectFailure.Some? {
        return Failure(AssertionFailedError(ConnectFailureMessage(db.url, db.connectFailure.value))), [];
      }
      var listed := base.ListTables(db, catalogName, schemaName, tableName);
      if listed.Fail? {
        return Failure(listed.error), [];
      }
      executed := [];
      if |base.tables| == 1 || (|base.tables| > 1 && !strict) {
        var run := base.DropTables(db, base.tables);
        executed := run.executed;
        if run.outcome.Fail? {
          return Failure(run.outcome.error), executed;
        }
      }
      return Success(success), executed;
    }
  }
}
