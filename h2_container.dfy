/**
 * The H2 container: an in-memory database unless a database name is
 * given, its credentials and the JDBC URL, which depends only on the mode
 * and the name.
 */
module H2 {
  import opened JavaLang

  const H2_PORT: Int32 := 8082

  const DEFAULT_DATABASE: string := "test"
  const DEFAULT_USER: string := "test"
  const DEFAULT_PASSWORD: string := "test"

  const URL_PREFIX: string := "jdbc:h2:"
  const IN_MEMORY_URL: string := "jdbc:h2:mem:"

  /** The URL for a mode and a name: the in-memory URL, or the prefix followed by the name. */
  function H2Url(inMemory: bool, databaseName: string): (url: string)
    ensures |url| >= |URL_PREFIX| && url[..|URL_PREFIX|] == URL_PREFIX
    ensures inMemory ==> url == IN_MEMORY_URL
    ensures !inMemory ==> url[|URL_PREFIX|..] == databaseName
  {
    if inMemory then IN_MEMORY_URL else URL_PREFIX + databaseName
  }

  /**
   * The in-memory URL coincides with a named database's URL exactly when
   * the name is `mem:`.
   */
  lemma {:induction false} NamedUrlMatchesInMemoryOnlyFor(databaseName: string)
    ensures H2Url(false, databaseName) == H2Url(true, databaseName) <==> databaseName == "mem:"
  {
    var url := H2Url(false, databaseName);
    if url == IN_MEMORY_URL {
      assert databaseName == url[|URL_PREFIX|..];
    }
  }

  /** Two named databases share a URL only when they share the name. */
  lemma {:induction false} NamedUrlInjective(a: string, b: string)
    ensures H2Url(false, a) == H2Url(false, b) <==> a == b
  {
    if H2Url(false, a) == H2Url(false, b) {
      assert a == H2Url(false, a)[|URL_PREFIX|..];
    }
  }

  class H2Container {
    var inMemoryDatabase: bool
    var databaseName: string
    var username: string
    var password: string
    var exposedPorts: seq<Int32>

    /** In memory, with the default name and credentials, exposing the web console port. */
    constructor ()
      ensures inMemoryDatabase && databaseName == DEFAULT_DATABASE
      ensures JdbcUrl() == IN_MEMORY_URL && DatabaseName() == ""
      ensures username == DEFAULT_USER && password == DEFAULT_PASSWORD
      ensures exposedPorts == [H2_PORT]
    {
      inMemoryDatabase := true;
      databaseName := DEFAULT_DATABASE;
      username := DEFAULT_USER;
      password := DEFAULT_PASSWORD;
      exposedPorts := [];
      new;
      AddExposedPort(H2_PORT);
    }

    /** `addExposedPort`: appends one port. */
    method AddExposedPort(port: Int32)
      modifies this`exposedPorts
      ensures exposedPorts == old(exposedPorts) + [port]
    {
      exposedPorts := exposedPorts + [port];
    }

    /** `isInMemoryDatabase`. */
    function IsInMemoryDatabase(): bool
      reads this
    {
      inMemoryDatabase
    }

    /** `getDatabaseName`: empty while in memory. */
    function DatabaseName(): (name: string)
      reads this
      ensures inMemoryDatabase ==> name == ""
      ensures !inMemoryDatabase ==> name == databaseName
    {
      if IsInMemoryDatabase() then "" else databaseName
    }

    /** `getJdbcUrl`: built from `getDatabaseName`, it is the URL of the current mode and name. */
    function JdbcUrl(): (url: string)
      reads this
      ensures url == H2Url(inMemoryDatabase, databaseName)
    {
      if inMemoryDatabase then IN_MEMORY_URL else URL_PREFIX + DatabaseName()
    }

    /** `constructUrlForConnection`: the query string is ignored. */
    function ConstructUrlForConnection(queryString: string): (url: string)
      reads this
      ensures url == H2Url(inMemoryDatabase, databaseName)
    {
      JdbcUrl()
    }

    /** `withInMemoryDatabase`: switches to memory and keeps the name for later. */
    method WithInMemoryDatabase() returns (self: H2Container)
      modifies this`inMemoryDatabase
      ensures self == this && inMemoryDatabase && databaseName == old(databaseName)
      ensures JdbcUrl() == IN_MEMORY_URL && DatabaseName() == ""
    {
      inMemoryDatabase := true;
      self := this;
    }

    /** `withDatabaseName`: leaves memory and names the database. */
    method WithDatabaseName(databaseName: string) returns (self: H2Container)
      modifies this`inMemoryDatabase, this`databaseName
      ensures self == this && !inMemoryDatabase && this.databaseName == databaseName
      ensures DatabaseName() == databaseName && JdbcUrl() == URL_PREFIX + databaseName
    {
      inMemoryDatabase := false;
      this.databaseName := databaseName;
      self := this;
    }

    /** `withUsername`: the URL does not change. */
    method WithUsername(username: string) returns (self: H2Container)
      modifies this`username
      ensures self == this && this.username == username
      ensures JdbcUrl() == old(JdbcUrl())
    {
      this.username := username;
      self := this;
    }

    /** `withPassword`: the URL does not change. */
    method WithPassword(password: string) returns (self: H2Container)
      modifies this`password
      ensures self == this && this.password == password
      ensures JdbcUrl() == old(JdbcUrl())
    {
      this.password := password;
      self := this;
    }
  }
}
