/**
 * The SQLite container: an in-memory database unless a database name is
 * given, its credentials and the JDBC URL, which depends only on the mode
 * and the name.
 */
module SQLite {
  import opened JavaLang

  const DEFAULT_DATABASE: string := "/tmp/test.db"
  const DEFAULT_USER: string := "test"
  const DEFAULT_PASSWORD: string := "test"

  const URL_PREFIX: string := "jdbc:sqlite:"
  const IN_MEMORY_URL: string := "jdbc:sqlite::memory:"

  /** The URL for a mode and a name: the in-memory URL, or the prefix followed by the name. */
  function SQLiteUrl(inMemory: bool, databaseName: string): (url: string)
    ensures |url| >= |URL_PREFIX| && url[..|URL_PREFIX|] == URL_PREFIX
    ensures inMemory ==> url == IN_MEMORY_URL
    ensures !inMemory ==> url[|URL_PREFIX|..] == databaseName
  {
    if inMemory then IN_MEMORY_URL else URL_PREFIX + databaseName
  }

  /**
   * The in-memory URL coincides with a named database's URL exactly when
   * the name is `:memory:`.
   */
  lemma {:induction false} NamedUrlMatchesInMemoryOnlyFor(databaseName: string)
    ensures SQLiteUrl(false, databaseName) == SQLiteUrl(true, databaseName) <==> databaseName == ":memory:"
  {
    var url := SQLiteUrl(false, databaseName);
    if url == IN_MEMORY_URL {
      assert databaseName == url[|URL_PREFIX|..];
    }
  }

  /** Two named databases share a URL only when they share the name. */
  lemma {:induction false} NamedUrlInjective(a: string, b: string)
    ensures SQLiteUrl(false, a) == SQLiteUrl(false, b) <==> a == b
  {
    if SQLiteUrl(false, a) == SQLiteUrl(false, b) {
      assert a == SQLiteUrl(false, a)[|URL_PREFIX|..];
    }
  }

  class SQLiteContainer {
    var inMemoryDatabase: bool
    var filename: string
    var username: string
    var password: string
    var exposedPorts: seq<Int32>

    /** In memory, with the default name and credentials; no port is exposed. */
    constructor ()
      ensures inMemoryDatabase && filename == DEFAULT_DATABASE
      ensures JdbcUrl() == IN_MEMORY_URL && DatabaseName() == ""
      ensures username == DEFAULT_USER && password == DEFAULT_PASSWORD
      ensures exposedPorts == []
    {
      inMemoryDatabase := true;
      filename := DEFAULT_DATABASE;
      username := DEFAULT_USER;
      password := DEFAULT_PASSWORD;
      exposedPorts := [];
    }

    /** The image-name constructor ignores the image and delegates to the default one. */
    constructor FromImage(imageName: string)
      ensures inMemoryDatabase && filename == DEFAULT_DATABASE
      ensures JdbcUrl() == IN_MEMORY_URL && DatabaseName() == ""
      ensures username == DEFAULT_USER && password == DEFAULT_PASSWORD
      ensures exposedPorts == []
    {
      inMemoryDatabase := true;
      filename := DEFAULT_DATABASE;
      username := DEFAULT_USER;
      password := DEFAULT_PASSWORD;
      exposedPorts := [];
    }

    /** `isInMemoryDatabase`. */
    function IsInMemoryDatabase(): bool
      reads this
    {
      inMemoryDatabase
    }

    /** `getDatabaseName`: empty while in memory. */
    function DatabaseName(): (name: string)
      reads this
      ensures inMemoryDatabase ==> name == ""
      ensures !inMemoryDatabase ==> name == filename
    {
      if IsInMemoryDatabase() then "" else filename
    }

    /** `getJdbcUrl`: built from `getDatabaseName`, it is the URL of the current mode and name. */
    function JdbcUrl(): (url: string)
      reads this
      ensures url == SQLiteUrl(inMemoryDatabase, filename)
    {
      if inMemoryDatabase then IN_MEMORY_URL else URL_PREFIX + DatabaseName()
    }

    /** `constructUrlForConnection`: the query string is ignored. */
    function ConstructUrlForConnection(queryString: string): (url: string)
      reads this
      ensures url == SQLiteUrl(inMemoryDatabase, filename)
    {
      JdbcUrl()
    }

    /** `withInMemoryDatabase`: switches to memory and keeps the name for later. */
    method WithInMemoryDatabase() returns (self: SQLiteContainer)
      modifies this`inMemoryDatabase
      ensures self == this && inMemoryDatabase && filename == old(filename)
      ensures JdbcUrl() == IN_MEMORY_URL && DatabaseName() == ""
    {
      inMemoryDatabase := true;
      self := this;
    }

    /** `withDatabaseName`: leaves memory and names the database. */
    method WithDatabaseName(filename: string) returns (self: SQLiteContainer)
      modifies this`inMemoryDatabase, this`filename
      ensures self == this && !inMemoryDatabase && this.filename == filename
      ensures DatabaseName() == filename && JdbcUrl() == URL_PREFIX + filename
    {
      inMemoryDatabase := false;
      this.filename := filename;
      self := this;
    }

    /** `withUsername`: the URL does not change. */
    method WithUsername(username: string) returns (self: SQLiteContainer)
      modifies this`username
      ensures self == this && this.username == username
      ensures JdbcUrl() == old(JdbcUrl())
    {
      this.username := username;
      self := this;
    }

    /** `withPassword`: the URL does not change. */
    method WithPassword(password: string) returns (self: SQLiteContainer)
      modifies this`password
      ensures self == this && this.password == password
      ensures JdbcUrl() == old(JdbcUrl())
    {
      this.password := password;
      self := this;
    }
  }
}
