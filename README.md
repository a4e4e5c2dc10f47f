# testcontainers-java-extras, modelled in Dafny

This project models the logic of the testcontainers-java-extras library. The library is a set of extras for Testcontainers:

- **A log consumer.** It forwards a container's output to a logger. Its verbosity decides which lines are forwarded and at what severity.
- **Two JDBC matchers.** One checks that a table exists. The other drops the tables that match a catalog, schema and table pattern.
- **Four JDBC database containers:** SAP HANA, Vertica, H2 and SQLite. Each keeps its own configuration state: exposed ports, URL parameters, credentials, and an in-memory/file toggle. From that state it builds its JDBC URL.

The model has one module per source file, plus two modules of shared pieces:

- `JavaLang` models the Java behaviour that the source relies on:
  - `String` concatenation of `null`;
  - `StringUtils.isBlank` / `isNotBlank`, over the characters `Character.isWhitespace` accepts;
  - `String.contains`;
  - `Integer.toString`;
  - 32-bit `int` wrap-around.
- `UrlParameters` models the conditional `put` into the `urlParameters` map.

Objects whose fields the source updates in place are classes, with `modifies` frames. Their methods are proved against specification functions, and the properties are proved about those functions as lemmas.

JDBC is replaced by a `Database` value. It stands for the container and its driver during one evaluation:

- the URL the container reports;
- whether connecting fails;
- the rows (and a possible failure) that the metadata query returns for given patterns;
- whether creating a statement fails;
- which SQL statements fail.

The host, the framework's port mapping and the rendered URL parameters are parameters of the `JdbcUrl` functions.

Java `null` is modelled as follows:

- **Matchers:** table names and patterns are `Option<string>`.
- **Vertica:** the optional settings are `Option` too.
- **`stripQuotes(null)`:** this throws a `NullPointerException`. The documentation of `listTables` (AbstractJdbcDatabaseContainerMatcher.java:147-148) says the catalog and schema may be null, but `listTables` passes them straight to `stripQuotes`. The model follows the code: the listing then fails with `NullPointerException`, after `tables` has been cleared.

## Model

| member | source | states |
|---|---|---|
| JavaLang.Wrap32 | modules/saphana/src/main/java/com/coyotesong/testcontainers/containers/SapHanaContainer.java:120-122 | The result is a 32-bit int congruent to the exact value modulo 2^32, and equal to it when it fits. |
| JavaLang.Stringify | modules/jdbc/src/main/java/com/coyotesong/testcontainers/containers/matchers/AbstractJdbcDatabaseContainerMatcher.java:73 | Appending a null reference gives "null"; a present string is appended as it is. |
| JavaLang.IsNotBlank | modules/jdbc/src/main/java/com/coyotesong/testcontainers/containers/matchers/AbstractJdbcDatabaseContainerMatcher.java:65 | A string is not blank exactly when it is present and holds a character that is not whitespace. |
| JavaLang.ContainsIffOccurs | core/src/main/java/com/coyotesong/testcontainers/containers/output/SelectiveLogConsumer.java:102-106 | `contains` holds exactly when the substring occurs at some index. |
| JavaLang.NatToStringDenotes | modules/vertica/src/main/java/com/coyotesong/testcontainers/containers/VerticaContainer.java:114 | The decimal rendering consists of digits, denotes the number and has no leading zero. |
| JavaLang.IntToString | modules/vertica/src/main/java/com/coyotesong/testcontainers/containers/VerticaContainer.java:114 | A negative number renders as '-' followed by the rendering of its magnitude; any other number renders as its digits. |
| SelectiveLogging.Route | core/src/main/java/com/coyotesong/testcontainers/containers/output/SelectiveLogConsumer.java:89-121 | There is an emission exactly when the level is not NONE and the frame is stdout or stderr. The emitted text is the line, unchanged. |
| SelectiveLogging.RouteNoneSilent | core/src/main/java/com/coyotesong/testcontainers/containers/output/SelectiveLogConsumer.java:119-120 | At NONE, no frame is logged. |
| SelectiveLogging.RouteAllByStream | core/src/main/java/com/coyotesong/testcontainers/containers/output/SelectiveLogConsumer.java:90-98 | At ALL, stdout goes to info and stderr to warn, whatever the text. |
| SelectiveLogging.RouteSomeDemotesEmbeddedLogs | core/src/main/java/com/coyotesong/testcontainers/containers/output/SelectiveLogConsumer.java:99-117 | At SOME, stdout always goes to info. Stderr goes to debug exactly when one of the four markers occurs in the line, and to warn exactly when none does. |
| SelectiveLogging.RouteSomeExample | core/src/main/java/com/coyotesong/testcontainers/containers/output/SelectiveLogConsumer.java:106 | A stderr line with " LOG: " in it is demoted to debug at SOME. |
| SelectiveLogging.SelectiveLogConsumer.constructor | core/src/main/java/com/coyotesong/testcontainers/containers/output/SelectiveLogConsumer.java:42-45 | Stores the name and the given level. |
| SelectiveLogging.SelectiveLogConsumer.Named | core/src/main/java/com/coyotesong/testcontainers/containers/output/SelectiveLogConsumer.java:52-54 | The name-only constructor sets the level to SOME. |
| SelectiveLogging.SelectiveLogConsumer.GetLoggingLevel | core/src/main/java/com/coyotesong/testcontainers/containers/output/SelectiveLogConsumer.java:71-73 | Returns the stored level. |
| SelectiveLogging.SelectiveLogConsumer.SetLoggingLevel | core/src/main/java/com/coyotesong/testcontainers/containers/output/SelectiveLogConsumer.java:80-82 | Afterwards `GetLoggingLevel` returns the level set; only the level changes. |
| SelectiveLogging.SelectiveLogConsumer.Accept | core/src/main/java/com/coyotesong/testcontainers/containers/output/SelectiveLogConsumer.java:85-122 | The log call made is `Route` of the current level, the frame's stream and its line. The consumer's state does not change. |
| JdbcMatchers.Qualifier | modules/jdbc/src/main/java/com/coyotesong/testcontainers/containers/matchers/AbstractJdbcDatabaseContainerMatcher.java:65-72 | A non-blank part contributes itself and a dot; a blank or null part contributes nothing. |
| JdbcMatchers.NormalizeTableName | modules/jdbc/src/main/java/com/coyotesong/testcontainers/containers/matchers/AbstractJdbcDatabaseContainerMatcher.java:62-76 | The length is the table's length, plus the length plus one of each non-blank catalog and schema. The name ends with the table and starts with the catalog and a dot when the catalog is not blank. |
| JdbcMatchers.NormalizeTableNameJoins | modules/jdbc/src/main/java/com/coyotesong/testcontainers/containers/matchers/AbstractJdbcDatabaseContainerMatcher.java:62-76 | The normalized name equals the dot-join of the non-blank catalog and schema followed by the table, an independent definition. |
| JdbcMatchers.NormalizeTableNameExamples | modules/jdbc/src/main/java/com/coyotesong/testcontainers/containers/matchers/AbstractJdbcDatabaseContainerMatcher.java:62-76 | ("app", null, "users") gives "app.users"; (null, null, "users") gives "users". |
| JdbcMatchers.StripQuotes | modules/jdbc/src/main/java/com/coyotesong/testcontainers/containers/matchers/AbstractJdbcDatabaseContainerMatcher.java:107-110 | A name matching the quoted-name pattern loses exactly its first and last character. Any other name is returned unchanged. |
| JdbcMatchers.StripQuotesUnquotes | modules/jdbc/src/main/java/com/coyotesong/testcontainers/containers/matchers/AbstractJdbcDatabaseContainerMatcher.java:107-110 | Enclosing a name without line terminators in any two quote characters and stripping gives the name back. |
| JdbcMatchers.StripQuotesExamples | modules/jdbc/src/main/java/com/coyotesong/testcontainers/containers/matchers/AbstractJdbcDatabaseContainerMatcher.java:107-110 | Only one layer is stripped. Names that are unquoted, of length one, or hold a line break inside are kept. |
| JdbcMatchers.Listing | modules/jdbc/src/main/java/com/coyotesong/testcontainers/containers/matchers/AbstractJdbcDatabaseContainerMatcher.java:152-175 | A null catalog, schema or table fails with a NullPointerException and leaves the list empty. Otherwise the list holds the normalized name of each metadata row, in row order, and the listing passes exactly when reading the rows did not fail. |
| JdbcMatchers.ListingFailureNamesPattern | modules/jdbc/src/main/java/com/coyotesong/testcontainers/containers/matchers/AbstractJdbcDatabaseContainerMatcher.java:165-173 | A failed listing raises an assertion error naming the normalized unstripped patterns, the URL and the message. |
| JdbcMatchers.ListingIgnoresQuotes | modules/jdbc/src/main/java/com/coyotesong/testcontainers/containers/matchers/AbstractJdbcDatabaseContainerMatcher.java:155-160 | Quoting the table pattern once does not change what is listed. |
| JdbcMatchers.DropStatements | modules/jdbc/src/main/java/com/coyotesong/testcontainers/containers/matchers/AbstractJdbcDatabaseContainerMatcher.java:121-124 | One "DROP TABLE IF EXISTS" statement per table, in list order. |
| JdbcMatchers.DropBatch | modules/jdbc/src/main/java/com/coyotesong/testcontainers/containers/matchers/AbstractJdbcDatabaseContainerMatcher.java:121-135 | At most one statement per table is executed. A batch that passes executed all of them, and one that fails executed at least one. |
| JdbcMatchers.DropBatchSucceeds | modules/jdbc/src/main/java/com/coyotesong/testcontainers/containers/matchers/AbstractJdbcDatabaseContainerMatcher.java:121-135 | The batch passes exactly when every drop goes through, and then it has executed exactly the drop statements in order. |
| JdbcMatchers.DropBatchStopsAtFirstFailure | modules/jdbc/src/main/java/com/coyotesong/testcontainers/containers/matchers/AbstractJdbcDatabaseContainerMatcher.java:121-134 | A failed batch executed the drops of a prefix; all but the last went through. The error names the last table, the URL and the message. |
| JdbcMatchers.DropBatchFailsAt | modules/jdbc/src/main/java/com/coyotesong/testcontainers/containers/matchers/AbstractJdbcDatabaseContainerMatcher.java:121-134 | Conversely, if the drops before position i go through and the one at i fails, the batch executes the drops up to i and reports that failure. |
| JdbcMatchers.DropTablesRun | modules/jdbc/src/main/java/com/coyotesong/testcontainers/containers/matchers/AbstractJdbcDatabaseContainerMatcher.java:118-142 | An empty list executes nothing and passes. A statement that cannot be created fails with "Unable to create statement at ..." before any drop. |
| JdbcMatchers.AbstractJdbcMatcher.constructor | modules/jdbc/src/main/java/com/coyotesong/testcontainers/containers/matchers/AbstractJdbcDatabaseContainerMatcher.java:39-41 | Holds the container, with an empty table list. |
| JdbcMatchers.AbstractJdbcMatcher.ListTables | modules/jdbc/src/main/java/com/coyotesong/testcontainers/containers/matchers/AbstractJdbcDatabaseContainerMatcher.java:152-175 | The new `tables` and the outcome are `Listing` of the patterns. The list is cleared first and refilled row by row, so nothing from an earlier call survives. |
| JdbcMatchers.AbstractJdbcMatcher.DropTables | modules/jdbc/src/main/java/com/coyotesong/testcontainers/containers/matchers/AbstractJdbcDatabaseContainerMatcher.java:118-142 | The statements executed and the outcome are `DropTablesRun`. The loop stops at the first failure, and the table list is not modified. |
| DropTableIfExists.ShouldDropByMode | modules/jdbc/src/main/java/com/coyotesong/testcontainers/containers/matchers/DropTableIfExistsMatcher.java:75 | Non-strict mode drops any non-empty match; strict mode drops only a single match. |
| DropTableIfExists.Evaluate | modules/jdbc/src/main/java/com/coyotesong/testcontainers/containers/matchers/DropTableIfExistsMatcher.java:70-84 | A normal return is always true. A connection failure raises "Unable to connect to database ..." before listing or dropping. A failed listing executes nothing and its error escapes. Otherwise the list is the listing's; when the drop rule allows, the statements executed are those of `dropTables`, whose failure escapes, and the result is true when it passes or the rule does not allow dropping. |
| DropTableIfExists.NonStrictDropsEveryMatch | modules/jdbc/src/main/java/com/coyotesong/testcontainers/containers/matchers/DropTableIfExistsMatcher.java:74-77 | In non-strict mode every listed table is dropped, in order, and the result is true. |
| DropTableIfExists.StrictSkipsSeveralMatches | modules/jdbc/src/main/java/com/coyotesong/testcontainers/containers/matchers/DropTableIfExistsMatcher.java:75-83 | In strict mode, several matches execute nothing and still return true. |
| DropTableIfExists.StrictDropsSingleMatch | modules/jdbc/src/main/java/com/coyotesong/testcontainers/containers/matchers/DropTableIfExistsMatcher.java:75-77 | In strict mode, a single match is dropped. |
| DropTableIfExists.DropFailureEscapes | modules/jdbc/src/main/java/com/coyotesong/testcontainers/containers/matchers/DropTableIfExistsMatcher.java:74-77 | When the drops before position i go through and the one at i fails, exactly the drops up to i were executed and the result is the assertion error naming table i, the URL and the message. |
| DropTableIfExists.NoMatchNoDrop | modules/jdbc/src/main/java/com/coyotesong/testcontainers/containers/matchers/DropTableIfExistsMatcher.java:75-77 | Without a match, no statement runs in either mode. |
| DropTableIfExists.DropTableIfExistsMatcher.constructor | modules/jdbc/src/main/java/com/coyotesong/testcontainers/containers/matchers/DropTableIfExistsMatcher.java:38-50 | Stores the container, the three patterns and the mode; the table list starts empty. |
| DropTableIfExists.DropTableIfExistsMatcher.DescribeMismatchSafely | modules/jdbc/src/main/java/com/coyotesong/testcontainers/containers/matchers/DropTableIfExistsMatcher.java:52-63 | Describes something exactly when strict and more than one table matched. It then gives "Too many matches N" and the list of names. |
| DropTableIfExists.DropTableIfExistsMatcher.DescribeTo | modules/jdbc/src/main/java/com/coyotesong/testcontainers/containers/matchers/DropTableIfExistsMatcher.java:65-68 | "Table " followed by the raw table pattern, not the normalized name. |
| DropTableIfExists.DropTableIfExistsMatcher.MatchesSafely | modules/jdbc/src/main/java/com/coyotesong/testcontainers/containers/matchers/DropTableIfExistsMatcher.java:70-84 | The new table list, the statements executed and the result are `Evaluate` of the database, the previous list, the patterns and the mode. |
| TableExists.Evaluate | modules/jdbc/src/main/java/com/coyotesong/testcontainers/containers/matchers/TableExistsMatcher.java:58-69 | A normal return is always false. A connection failure raises "Unable to connect to database ...". Otherwise the list is the listing's, and the return is normal exactly when the listing passed; a failed listing's error escapes as the result. |
| TableExists.FoundTablesStillNotFound | modules/jdbc/src/main/java/com/coyotesong/testcontainers/containers/matchers/TableExistsMatcher.java:60-68 | Even when the listing finds tables, the result is false. |
| TableExists.TableExistsMatcher.constructor | modules/jdbc/src/main/java/com/coyotesong/testcontainers/containers/matchers/TableExistsMatcher.java:33-38 | Stores the container and the three patterns, which are constants afterwards. |
| TableExists.TableExistsMatcher.DescribeTo | modules/jdbc/src/main/java/com/coyotesong/testcontainers/containers/matchers/TableExistsMatcher.java:53-56 | "Table " followed by the normalized name of the patterns. |
| TableExists.TableExistsMatcher.DescribeMismatchSafely | modules/jdbc/src/main/java/com/coyotesong/testcontainers/containers/matchers/TableExistsMatcher.java:40-51 | Describes something exactly when the name check fails, and then "No tables match '<normalized name>' at '<url>'". |
| TableExists.TableExistsMatcher.MatchesSafely | modules/jdbc/src/main/java/com/coyotesong/testcontainers/containers/matchers/TableExistsMatcher.java:58-69 | The new table list and the result are `Evaluate` of the database, the previous list and the patterns. |
| ContainerMatchers.GetContainer | modules/jdbc/src/main/java/com/coyotesong/testcontainers/containers/matchers/JdbcDatabaseContainerMatcher.java:20-24 | Returns the receiver itself. |
| ContainerMatchers.TableExistsMatcher | modules/jdbc/src/main/java/com/coyotesong/testcontainers/containers/matchers/JdbcDatabaseContainerMatcher.java:34-37 | A new table-exists matcher over the receiver, with the patterns unchanged. |
| ContainerMatchers.DropTableIfExistsMatcher | modules/jdbc/src/main/java/com/coyotesong/testcontainers/containers/matchers/JdbcDatabaseContainerMatcher.java:50-58 | A new drop matcher over the receiver, with the patterns unchanged, not strict. |
| ContainerMatchers.StrictDropTableIfExistsMatcher | modules/jdbc/src/main/java/com/coyotesong/testcontainers/containers/matchers/JdbcDatabaseContainerMatcher.java:72-80 | The same drop matcher, strict. |
| UrlParameters.PutIfNotBlank | modules/vertica/src/main/java/com/coyotesong/testcontainers/containers/VerticaContainer.java:109-111 | The key is set to the value when the value is not blank; otherwise the map is unchanged. |
| SapHana.IndexServerDatabasePort | modules/saphana/src/main/java/com/coyotesong/testcontainers/containers/SapHanaContainer.java:120-122 | 30013 + 100·instance in int arithmetic, exact for instances 1 to 99. |
| SapHana.SystemDatabasePort | modules/saphana/src/main/java/com/coyotesong/testcontainers/containers/SapHanaContainer.java:132-134 | 30017 + 100·instance in int arithmetic, exact for instances 1 to 99. |
| SapHana.TenantDatabasePort | modules/saphana/src/main/java/com/coyotesong/testcontainers/containers/SapHanaContainer.java:143-145 | 30040 + 100·instance + tenant in int arithmetic, exact for instances and tenants 1 to 99. |
| SapHana.HanaPlatformPort | modules/saphana/src/main/java/com/coyotesong/testcontainers/containers/SapHanaContainer.java:171-173 | 8000 + instance in int arithmetic, exact for instances 1 to 99. |
| SapHana.SapCtrlPort | modules/saphana/src/main/java/com/coyotesong/testcontainers/containers/SapHanaContainer.java:181-183 | 50013 + 100·instance in int arithmetic, exact for instances 1 to 99. |
| SapHana.SapHanaPortsValues | modules/saphana/src/main/java/com/coyotesong/testcontainers/containers/SapHanaContainer.java:87-95 | With instance 90 and tenant 1 the port list is [39013, 39017, 39041, 1128, 1129, 8090, 59013]. |
| SapHana.ExposedPorts | modules/saphana/src/main/java/com/coyotesong/testcontainers/containers/SapHanaContainer.java:236-246 | Eleven ports, one per `addExposedPort` call of the constructor; their values are stated by the two lemmas below. |
| SapHana.ExposedPortsDistinct | modules/saphana/src/main/java/com/coyotesong/testcontainers/containers/SapHanaContainer.java:236-246 | For instances 1 to 99 the eleven exposed ports are pairwise distinct. |
| SapHana.TenantPortExposed | modules/saphana/src/main/java/com/coyotesong/testcontainers/containers/SapHanaContainer.java:234-246 | The tenant port that the JDBC URL uses is among the exposed ports exactly when the tenant id is at most 5. |
| SapHana.HanaUrlParameters | modules/saphana/src/main/java/com/coyotesong/testcontainers/containers/SapHanaContainer.java:290-302 | The user is always put. The database name and the password are put exactly when they are not blank. Every other parameter is kept. |
| SapHana.DefaultCredentialsAllPut | modules/saphana/src/main/java/com/coyotesong/testcontainers/containers/SapHanaContainer.java:98-108 | With the image's fixed credentials, all three parameters are put. |
| SapHana.SapHanaContainer.constructor | modules/saphana/src/main/java/com/coyotesong/testcontainers/containers/SapHanaContainer.java:208-247 | Stores the ids and exposes exactly `ExposedPorts(instance)`, in order. |
| SapHana.SapHanaContainer.Default | modules/saphana/src/main/java/com/coyotesong/testcontainers/containers/SapHanaContainer.java:188-199 | Instance 90 and tenant 1, with their exposed ports. |
| SapHana.SapHanaContainer.AddExposedPort | modules/saphana/src/main/java/com/coyotesong/testcontainers/containers/SapHanaContainer.java:236 | Appends one port to the exposed ports. |
| SapHana.SapHanaContainer.ExposeInstancePorts | modules/saphana/src/main/java/com/coyotesong/testcontainers/containers/SapHanaContainer.java:236-246 | The eleven `addExposedPort` calls append `ExposedPorts(instance)`. |
| SapHana.SapHanaContainer.Configure | modules/saphana/src/main/java/com/coyotesong/testcontainers/containers/SapHanaContainer.java:290-302 | The new parameters are `HanaUrlParameters` of the old ones. |
| SapHana.SapHanaContainer.MappedTenantDatabasePort | modules/saphana/src/main/java/com/coyotesong/testcontainers/containers/SapHanaContainer.java:269-271 | The mapping of this instance's and tenant's port. |
| SapHana.SapHanaContainer.JdbcUrl | modules/saphana/src/main/java/com/coyotesong/testcontainers/containers/SapHanaContainer.java:310-313 | "jdbc:sap://", the host, ":", the mapped tenant port, "/" and the rendered parameters. |
| SapHana.SapHanaContainer.JdbcUrlReadsBack | modules/saphana/src/main/java/com/coyotesong/testcontainers/containers/SapHanaContainer.java:310-313 | After the host and its colon, the URL reads up to the first '/' as the mapped tenant port, and the rest after that '/' is the parameters. |
| Vertica.PutLoginTimeout | modules/vertica/src/main/java/com/coyotesong/testcontainers/containers/VerticaContainer.java:113-115 | A set timeout is put as its decimal text; an unset one changes nothing. |
| Vertica.PutStore | modules/vertica/src/main/java/com/coyotesong/testcontainers/containers/VerticaContainer.java:117-125 | Path and password are put together when neither is blank; otherwise the map is unchanged. |
| Vertica.VerticaCredentialsPut | modules/vertica/src/main/java/com/coyotesong/testcontainers/containers/VerticaContainer.java:108-115 | The user is always put. The password is put exactly when it is not blank, and the login timeout exactly when it is set. Otherwise the earlier value is kept. |
| Vertica.VerticaKeyStorePut | modules/vertica/src/main/java/com/coyotesong/testcontainers/containers/VerticaContainer.java:117-120 | KeyStorePath and KeyStorePassword are both put exactly when both are not blank; otherwise neither changes. |
| Vertica.VerticaTrustStorePut | modules/vertica/src/main/java/com/coyotesong/testcontainers/containers/VerticaContainer.java:122-125 | TrustStorePath and TrustStorePassword are both put exactly when both are not blank; otherwise neither changes. |
| Vertica.VerticaOthersKept | modules/vertica/src/main/java/com/coyotesong/testcontainers/containers/VerticaContainer.java:93-126 | Every parameter other than the seven is kept. |
| Vertica.KeyStoreNeedsBothSettings | modules/vertica/src/main/java/com/coyotesong/testcontainers/containers/VerticaContainer.java:117-120 | A key store path without its password puts neither parameter. |
| Vertica.VerticaContainer.constructor | modules/vertica/src/main/java/com/coyotesong/testcontainers/containers/VerticaContainer.java:44-89 | Defaults: vmart, dbadmin, vertica. No timeout and no stores. Exposed ports 5433 then 5444. |
| Vertica.VerticaContainer.ExposeVerticaPorts | modules/vertica/src/main/java/com/coyotesong/testcontainers/containers/VerticaContainer.java:87-89 | The loop appends the Vertica ports in order. |
| Vertica.VerticaContainer.AddExposedPort | modules/vertica/src/main/java/com/coyotesong/testcontainers/containers/VerticaContainer.java:88 | Appends one port to the exposed ports. |
| Vertica.VerticaContainer.Configure | modules/vertica/src/main/java/com/coyotesong/testcontainers/containers/VerticaContainer.java:92-126 | The new parameters are `VerticaUrlParameters` of the old ones and the settings. |
| Vertica.VerticaContainer.JdbcUrl | modules/vertica/src/main/java/com/coyotesong/testcontainers/containers/VerticaContainer.java:133-145 | Starts with "jdbc:vertica://", the host, ":", the mapping of 5433 and "/". Continues with the database name and the rendered parameters. |
| Vertica.VerticaContainer.JdbcUrlReadsBack | modules/vertica/src/main/java/com/coyotesong/testcontainers/containers/VerticaContainer.java:133-145 | For a database name without '?', and parameters that are empty or start with '?', the database name is what follows the fixed prefix up to the first '?', and the rest is the parameters. |
| Vertica.VerticaContainer.WithDatabaseName | modules/vertica/src/main/java/com/coyotesong/testcontainers/containers/VerticaContainer.java:196-200 | Sets the database name only, and returns the same container. |
| Vertica.VerticaContainer.WithUsername | modules/vertica/src/main/java/com/coyotesong/testcontainers/containers/VerticaContainer.java:202-206 | Sets the user only, and returns the same container. |
| Vertica.VerticaContainer.WithPassword | modules/vertica/src/main/java/com/coyotesong/testcontainers/containers/VerticaContainer.java:208-212 | Sets the password only, and returns the same container. |
| Vertica.VerticaContainer.WithLoginTimeout | modules/vertica/src/main/java/com/coyotesong/testcontainers/containers/VerticaContainer.java:220-223 | Sets the login timeout only, and returns the same container. |
| Vertica.VerticaContainer.WithKeyStorePath | modules/vertica/src/main/java/com/coyotesong/testcontainers/containers/VerticaContainer.java:233-236 | Sets the key store path only, and returns the same container. |
| Vertica.VerticaContainer.WithKeyStorePassword | modules/vertica/src/main/java/com/coyotesong/testcontainers/containers/VerticaContainer.java:244-247 | Sets the key store password only, and returns the same container. |
| Vertica.VerticaContainer.WithTrustStorePath | modules/vertica/src/main/java/com/coyotesong/testcontainers/containers/VerticaContainer.java:257-260 | Sets the trust store path only, and returns the same container. |
| Vertica.VerticaContainer.WithTrustStorePassword | modules/vertica/src/main/java/com/coyotesong/testcontainers/containers/VerticaContainer.java:268-271 | Sets the trust store password only, and returns the same container. |
| H2.H2Url | modules/h2/src/main/java/com/coyotesong/testcontainers/containers/H2Container.java:102-107 | Every URL starts with "jdbc:h2:". In memory it is "jdbc:h2:mem:"; otherwise the rest is the database name. |
| H2.NamedUrlMatchesInMemoryOnlyFor | modules/h2/src/main/java/com/coyotesong/testcontainers/containers/H2Container.java:102-107 | A named database's URL equals the in-memory URL exactly when the name is "mem:". |
| H2.NamedUrlInjective | modules/h2/src/main/java/com/coyotesong/testcontainers/containers/H2Container.java:106 | Two named databases get the same URL exactly when their names are equal. |
| H2.H2Container.constructor | modules/h2/src/main/java/com/coyotesong/testcontainers/containers/H2Container.java:60-94 | In memory, database name "test", credentials test/test, port 8082 exposed. The URL is "jdbc:h2:mem:" and the database name reads as "". |
| H2.H2Container.AddExposedPort | modules/h2/src/main/java/com/coyotesong/testcontainers/containers/H2Container.java:93 | Appends one port. |
| H2.H2Container.DatabaseName | modules/h2/src/main/java/com/coyotesong/testcontainers/containers/H2Container.java:148-154 | Empty while in memory; the stored name otherwise. |
| H2.H2Container.JdbcUrl | modules/h2/src/main/java/com/coyotesong/testcontainers/containers/H2Container.java:101-107 | The URL built from `getDatabaseName` equals `H2Url` of the mode and the stored name. |
| H2.H2Container.ConstructUrlForConnection | modules/h2/src/main/java/com/coyotesong/testcontainers/containers/H2Container.java:119-122 | Whatever the query string, the same URL as `getJdbcUrl`. |
| H2.H2Container.WithInMemoryDatabase | modules/h2/src/main/java/com/coyotesong/testcontainers/containers/H2Container.java:161-164 | Back in memory, whatever was stored. The URL is "jdbc:h2:mem:" and the name reads as "". The stored name is kept. |
| H2.H2Container.WithDatabaseName | modules/h2/src/main/java/com/coyotesong/testcontainers/containers/H2Container.java:166-171 | Not in memory; the name reads as n and the URL is "jdbc:h2:" + n. |
| H2.H2Container.WithUsername | modules/h2/src/main/java/com/coyotesong/testcontainers/containers/H2Container.java:173-177 | Sets the user only; the URL does not change. |
| H2.H2Container.WithPassword | modules/h2/src/main/java/com/coyotesong/testcontainers/containers/H2Container.java:179-183 | Sets the password only; the URL does not change. |
| SQLite.SQLiteUrl | modules/sqlite/src/main/java/com/coyotesong/testcontainers/containers/SQLiteContainer.java:105-110 | Every URL starts with "jdbc:sqlite:". In memory it is "jdbc:sqlite::memory:"; otherwise the rest is the file name. |
| SQLite.NamedUrlMatchesInMemoryOnlyFor | modules/sqlite/src/main/java/com/coyotesong/testcontainers/containers/SQLiteContainer.java:105-110 | A named database's URL equals the in-memory URL exactly when the name is ":memory:". |
| SQLite.NamedUrlInjective | modules/sqlite/src/main/java/com/coyotesong/testcontainers/containers/SQLiteContainer.java:109 | Two file names give the same URL exactly when they are equal. |
| SQLite.SQLiteContainer.constructor | modules/sqlite/src/main/java/com/coyotesong/testcontainers/containers/SQLiteContainer.java:68-88 | In memory, file "/tmp/test.db", credentials test/test, no exposed port. The URL is "jdbc:sqlite::memory:" and the name reads as "". |
| SQLite.SQLiteContainer.FromImage | modules/sqlite/src/main/java/com/coyotesong/testcontainers/containers/SQLiteContainer.java:95-97 | Ignores the image and yields the same state as the default constructor. |
| SQLite.SQLiteContainer.DatabaseName | modules/sqlite/src/main/java/com/coyotesong/testcontainers/containers/SQLiteContainer.java:150-156 | Empty while in memory; the stored file name otherwise. |
| SQLite.SQLiteContainer.JdbcUrl | modules/sqlite/src/main/java/com/coyotesong/testcontainers/containers/SQLiteContainer.java:104-110 | The URL built from `getDatabaseName` equals `SQLiteUrl` of the mode and the stored file name. |
| SQLite.SQLiteContainer.ConstructUrlForConnection | modules/sqlite/src/main/java/com/coyotesong/testcontainers/containers/SQLiteContainer.java:121-124 | Whatever the query string, the same URL as `getJdbcUrl`. |
| SQLite.SQLiteContainer.WithInMemoryDatabase | modules/sqlite/src/main/java/com/coyotesong/testcontainers/containers/SQLiteContainer.java:163-166 | Back in memory, whatever was stored. The URL is "jdbc:sqlite::memory:", and the stored file name is kept. |
| SQLite.SQLiteContainer.WithDatabaseName | modules/sqlite/src/main/java/com/coyotesong/testcontainers/containers/SQLiteContainer.java:168-173 | Not in memory; the name reads as f and the URL is "jdbc:sqlite:" + f. |
| SQLite.SQLiteContainer.WithUsername | modules/sqlite/src/main/java/com/coyotesong/testcontainers/containers/SQLiteContainer.java:175-179 | Sets the user only; the URL does not change. |
| SQLite.SQLiteContainer.WithPassword | modules/sqlite/src/main/java/com/coyotesong/testcontainers/containers/SQLiteContainer.java:181-185 | Sets the password only; the URL does not change. |

The getters that only return a field (`getUsername`, `getPassword`, `getDatabaseName` for SAP HANA and Vertica, `getInstanceId`, `getTenantId`, `getLoginTimeout`, `getKeystorePath`, `getTrustStorePath`) are the fields of the classes. `isInMemoryDatabase` is the H2 and SQLite function `IsInMemoryDatabase`, which returns the `inMemoryDatabase` field; it carries no contract of its own, and `DatabaseName` and `JdbcUrl` state what it decides.

## Left out

- Container lifecycle and Docker plumbing are not modelled:
  - image names and `assertCompatibleWith`;
  - wait strategies and `waitUntilContainerStarted`;
  - `setCommand`, `withCopyToContainer` and `withSharedMemorySize`;
  - driver class names and test queries.
- The `DockerImageName` constructor of the log consumer only converts the name to a string; it is not modelled.
- The `*ContainerProvider` classes are thin factories over framework constructors and are not part of this model.
- `getHost`, `getMappedPort` and `constructUrlParameters` belong to the framework. They are parameters of the `JdbcUrl` functions, and the rendering of `urlParameters` into the URL is not modelled.
- The getMapped* methods for the index server, system database, platform and SAP control ports have the same shape as `MappedTenantDatabasePort` and are not modelled separately.
- JDBC I/O is reduced to the outcomes the matchers react to: connecting, the metadata query and its rows, creating a statement and executing it.
  - The `metadata` field set by `createConnection` is folded into `Database.getTables`.
  - An `SQLException` while closing the connection after the matcher's work would be reported as "Unable to connect"; this is not modelled.
- A null connection URL, or a null `rs.getString(3)`, is not modelled. A metadata row always has a table name.
- The logger is not called; `Route` and `Accept` return the log call as a value. Decoding a frame's bytes and stripping the line ending are done by the framework and are not modelled: a frame carries its line already decoded and stripped.
- `Character.isWhitespace` is modelled for the characters it accepts in current Unicode versions. Older Unicode versions, such as the U+180E of Java 8, are not modelled.
- The container setters whose fields hold `String` take a present string. A `null` database name, user name or H2/SQLite password is not modelled. The Vertica password and optional settings do handle null.
- The Hamcrest `matches` check that guards the table-exists mismatch text is a parameter (`nameMatches`). `appendList` is recorded as a description part, not rendered.
- A null logging level is not modelled. `LoggingLevel` has no null, so `Route` and `Accept` are total. In the source, `SelectiveLogConsumer(name, null)` or `setLoggingLevel(null)` makes `accept` throw a `NullPointerException` at its `switch`.
- Exception messages are always present strings. A null `getMessage()`, which the source's messages would render as "null", is not modelled.
- A failure of `stmt.close()` after every drop has gone through is not modelled. The source reports it as "Unable to create statement at ..."; `DropTablesRun` passes in that case.
- SapHana.SapHanaContainer.JdbcUrl: does not model the exception the framework's `getMappedPort` throws for a port that is not exposed. For a tenant id above 5, `TenantPortExposed` shows that the tenant port is not exposed, so the source's `getJdbcUrl` throws there, while the model's total `mappedPort` yields a URL.
- The port helpers take `Int32` arguments. An `Integer` instance id that is null, and would fail on unboxing, is not modelled.
