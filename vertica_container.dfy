/**
 * The Vertica container: its exposed ports, its settings with their
 * fluent setters, the URL parameters `configure` derives from the settings
 * and the JDBC URL.
 */
module Vertica {
  import opened JavaLang
  import opened UrlParameters

  const VERTICA_DATABASE_PORT: Int32 := 5433
  const VERTICA_PORTS: seq<Int32> := [VERTICA_DATABASE_PORT, 5444]

  const DEFAULT_DATABASE: string := "vmart"
  const DEFAULT_USER: string := "dbadmin"
  const DEFAULT_PASSWORD: string := "vertica"

  /** The text `Integer.toString` gives a present timeout; unused when absent. */
  function TimeoutText(loginTimeout: Option<Int32>): string {
    if loginTimeout.Some? then IntToString(loginTimeout.value) else ""
  }

  /** A value that `Option` does not hold renders as the empty string; only read under a guard that it is present. */
  function ValueOr(v: Option<string>): string {
    if v.Some? then v.value else ""
  }

  /** `if (loginTimeout != null) urlParameters.put("loginTimeout", Integer.toString(loginTimeout))`. */
  function PutLoginTimeout(params: map<string, string>, loginTimeout: Option<Int32>): (r: map<string, string>)
    ensures loginTimeout.Some? ==> r == params["loginTimeout" := IntToString(loginTimeout.value)]
    ensures loginTimeout.None? ==> r == params
  {
    if loginTimeout.Some? then params["loginTimeout" := IntToString(loginTimeout.value)] else params
  }

  /** A store's path and password, put together and only when neither is blank. */
  function PutStore(params: map<string, string>, pathKey: string, passwordKey: string,
                    path: Option<string>, storePassword: Option<string>): (r: map<string, string>)
    ensures IsNotBlank(path) && IsNotBlank(storePassword) ==>
      r == params[pathKey := path.value][passwordKey := storePassword.value]
    ensures !(IsNotBlank(path) && IsNotBlank(storePassword)) ==> r == params
  {
    if IsNotBlank(path) && IsNotBlank(storePassword) then
      params[pathKey := path.value][passwordKey := storePassword.value]
    else params
  }

  /** The parameters `configure` puts, step by step. */
  function VerticaUrlParameters(params: map<string, string>, username: string, password: Option<string>,
                                loginTimeout: Option<Int32>,
                                keyStorePath: Option<string>, keyStorePassword: Option<string>,
                                trustStorePath: Option<string>, trustStorePassword: Option<string>)
    : map<string, string>
  {
    var withPassword := PutIfNotBlank(params["user" := username], "password", password);
    var withKeyStore := PutStore(PutLoginTimeout(withPassword, loginTimeout),
                                 "KeyStorePath", "KeyStorePassword", keyStorePath, keyStorePassword);
    PutStore(withKeyStore, "TrustStorePath", "TrustStorePassword", trustStorePath, trustStorePassword)
  }

  /** `configure` puts the user always, the password when it is not blank and the login timeout when it is set. */
  lemma {:induction false} VerticaCredentialsPut(params: map<string, string>, username: string,
                          password: Option<string>, loginTimeout: Option<Int32>,
                          keyStorePath: Option<string>, keyStorePassword: Option<string>,
                          trustStorePath: Option<string>, trustStorePassword: Option<string>)
    ensures var r := VerticaUrlParameters(params, username, password, loginTimeout, keyStorePath, keyStorePassword,
                                          trustStorePath, trustStorePassword);
      && "user" in r && r["user"] == username
      && PutWhen(params, r, "password", IsNotBlank(password), ValueOr(password))
      && PutWhen(params, r, "loginTimeout", loginTimeout.Some?, TimeoutText(loginTimeout))
  {
    var withUser := params["user" := username];
    var withPassword := PutIfNotBlank(withUser, "password", password);
    var withTimeout := PutLoginTimeout(withPassword, loginTimeout);
    var withKeyStore := PutStore(withTimeout, "KeyStorePath", "KeyStorePassword", keyStorePath, keyStorePassword);
    var r := PutStore(withKeyStore, "TrustStorePath", "TrustStorePassword", trustStorePath, trustStorePassword);
    assert SameAt(withUser, withTimeout, "user") && SameAt(withTimeout, r, "user");
    assert SameAt(params, withUser, "password") && SameAt(withTimeout, r, "password");
    assert SameAt(params, withPassword, "loginTimeout") && SameAt(withTimeout, r, "loginTimeout");
  }

  /** `configure` puts the key store's path and password together, and only when neither is blank. */
  lemma {:induction false} VerticaKeyStorePut(params: map<string, string>, username: string,
                          password: Option<string>, loginTimeout: Option<Int32>,
                          keyStorePath: Option<string>, keyStorePassword: Option<string>,
                          trustStorePath: Option<string>, trustStorePassword: Option<string>)
    ensures var r := VerticaUrlParameters(params, username, password, loginTimeout, keyStorePath, keyStorePassword,
                                          trustStorePath, trustStorePassword);
      var keyStore := IsNotBlank(keyStorePath) && IsNotBlank(keyStorePassword);
      && PutWhen(params, r, "KeyStorePath", keyStore, ValueOr(keyStorePath))
      && PutWhen(params, r, "KeyStorePassword", keyStore, ValueOr(keyStorePassword))
  {
    var withUser := params["user" := username];
    var withPassword := PutIfNotBlank(withUser, "password", password);
    var withTimeout := PutLoginTimeout(withPassword, loginTimeout);
    var withKeyStore := PutStore(withTimeout, "KeyStorePath", "KeyStorePassword", keyStorePath, keyStorePassword);
    var r := PutStore(withKeyStore, "TrustStorePath", "TrustStorePassword", trustStorePath, trustStorePassword);
    assert SameAt(params, withTimeout, "KeyStorePath") && SameAt(withKeyStore, r, "KeyStorePath");
    assert SameAt(params, withTimeout, "KeyStorePassword") && SameAt(withKeyStore, r, "KeyStorePassword");
  }

  /** `configure` puts the trust store's path and password together, and only when neither is blank. */
  lemma {:induction false} VerticaTrustStorePut(params: map<string, string>, username: string,
                          password: Option<string>, loginTimeout: Option<Int32>,
                          keyStorePath: Option<string>, keyStorePassword: Option<string>,
                          trustStorePath: Option<string>, trustStorePassword: Option<string>)
    ensures var r := VerticaUrlParameters(params, username, password, loginTimeout, keyStorePath, keyStorePassword,
                                          trustStorePath, trustStorePassword);
      var trustStore := IsNotBlank(trustStorePath) && IsNotBlank(trustStorePassword);
      && PutWhen(params, r, "TrustStorePath", trustStore, ValueOr(trustStorePath))
      && PutWhen(params, r, "TrustStorePassword", trustStore, ValueOr(trustStorePassword))
  {
    var withUser := params["user" := username];
    var withPassword := PutIfNotBlank(withUser, "password", password);
    var withTimeout := PutLoginTimeout(withPassword, loginTimeout);
    var withKeyStore := PutStore(withTimeout, "KeyStorePath", "KeyStorePassword", keyStorePath, keyStorePassword);
    var r := PutStore(withKeyStore, "TrustStorePath", "TrustStorePassword", trustStorePath, trustStorePassword);
    assert SameAt(params, withKeyStore, "TrustStorePath");
    assert SameAt(params, withKeyStore, "TrustStorePassword");
  }

  /** `configure` keeps every parameter it does not put. */
  lemma {:induction false} VerticaOthersKept(params: map<string, string>, username: string,
                          password: Option<string>, loginTimeout: Option<Int32>,
                          keyStorePath: Option<string>, keyStorePassword: Option<string>,
                          trustStorePath: Option<string>, trustStorePassword: Option<string>)
    ensures var r := VerticaUrlParameters(params, username, password, loginTimeout, keyStorePath, keyStorePassword,
                                          trustStorePath, trustStorePassword);
      OthersUnchanged(params, r, {"user", "password", "loginTimeout", "KeyStorePath", "KeyStorePassword",
                                  "TrustStorePath", "TrustStorePassword"})
  {
    var withUser := params["user" := username];
    var withPassword := PutIfNotBlank(withUser, "password", password);
    var withTimeout := PutLoginTimeout(withPassword, loginTimeout);
    var withKeyStore := PutStore(withTimeout, "KeyStorePath", "KeyStorePassword", keyStorePath, keyStorePassword);
    var r := PutStore(withKeyStore, "TrustStorePath", "TrustStorePassword", trustStorePath, trustStorePassword);
    var keyStoreKeys := {"KeyStorePath", "KeyStorePassword"};
    var trustStoreKeys := {"TrustStorePath", "TrustStorePassword"};
    PutKeepsOthers(params, "user", username);
    PutIfNotBlankPuts(withUser, "password", password);
    PutLoginTimeoutPuts(withPassword, loginTimeout);
    PutStorePuts(withTimeout, "KeyStorePath", "KeyStorePassword", keyStorePath, keyStorePassword);
    PutStorePuts(withKeyStore, "TrustStorePath", "TrustStorePassword", trustStorePath, trustStorePassword);
    OthersUnchangedCompose(params, withUser, withPassword, {"user"}, {"password"});
    OthersUnchangedCompose(params, withPassword, withTimeout, {"user"} + {"password"}, {"loginTimeout"});
    OthersUnchangedCompose(params, withTimeout, withKeyStore, {"user"} + {"password"} + {"loginTimeout"}, keyStoreKeys);
    OthersUnchangedCompose(params, withKeyStore, r, {"user"} + {"password"} + {"loginTimeout"} + keyStoreKeys,
                           trustStoreKeys);
  }

  /** `PutLoginTimeout` in the terms of `PutWhen`. */
  lemma PutLoginTimeoutPuts(params: map<string, string>, loginTimeout: Option<Int32>)
    ensures var r := PutLoginTimeout(params, loginTimeout);
      PutWhen(params, r, "loginTimeout", loginTimeout.Some?, TimeoutText(loginTimeout))
      && OthersUnchanged(params, r, {"loginTimeout"})
  {
  }

  /** `PutStore` in the terms of `PutWhen`: both keys decided by the same condition. */
  lemma PutStorePuts(params: map<string, string>, pathKey: string, passwordKey: string,
                     path: Option<string>, storePassword: Option<string>)
    requires pathKey != passwordKey
    ensures var r := PutStore(params, pathKey, passwordKey, path, storePassword);
      var cond := IsNotBlank(path) && IsNotBlank(storePassword);
      && PutWhen(params, r, pathKey, cond, ValueOr(path))
      && PutWhen(params, r, passwordKey, cond, ValueOr(storePassword))
      && OthersUnchanged(params, r, {pathKey, passwordKey})
  {
  }

  /** A key store path without its password puts neither parameter. */
  lemma KeyStoreNeedsBothSettings(params: map<string, string>, username: string, password: Option<string>,
                                  loginTimeout: Option<Int32>, keyStorePath: string,
                                  trustStorePath: Option<string>, trustStorePassword: Option<string>)
    requires "KeyStorePath" !in params && "KeyStorePassword" !in params
    ensures var r := VerticaUrlParameters(params, username, password, loginTimeout, Some(keyStorePath), None,
                                          trustStorePath, trustStorePassword);
      "KeyStorePath" !in r && "KeyStorePassword" !in r
  {
  }

  class VerticaContainer {
    var databaseName: string
    var username: string
    var password: Option<string>
    var loginTimeout: Option<Int32>
    var keyStorePath: Option<string>
    var keyStorePassword: Option<string>
    var trustStorePath: Option<string>
    var trustStorePassword: Option<string>
    var exposedPorts: seq<Int32>
    var urlParameters: map<string, string>

    /** The default settings; the constructor exposes each of `VERTICA_PORTS` in turn. */
    constructor ()
      ensures databaseName == DEFAULT_DATABASE && username == DEFAULT_USER && password == Some(DEFAULT_PASSWORD)
      ensures loginTimeout == None && keyStorePath == None && keyStorePassword == None
      ensures trustStorePath == None && trustStorePassword == None
      ensures exposedPorts == VERTICA_PORTS && urlParameters == map[]
    {
      databaseName := DEFAULT_DATABASE;
      username := DEFAULT_USER;
      password := Some(DEFAULT_PASSWORD);
      loginTimeout := None;
      keyStorePath := None;
      keyStorePassword := None;
      trustStorePath := None;
      trustStorePassword := None;
      exposedPorts := [];
      urlParameters := map[];
      new;
      ExposeVerticaPorts();
    }

    /** The constructor's loop over `VERTICA_PORTS`. */
    method ExposeVerticaPorts()
      modifies this`exposedPorts
      ensures exposedPorts == old(exposedPorts) + VERTICA_PORTS
    {
      var i := 0;
      while i < |VERTICA_PORTS|
        invariant 0 <= i <= |VERTICA_PORTS|
        invariant exposedPorts == old(exposedPorts) + VERTICA_PORTS[..i]
      {
        AddExposedPort(VERTICA_PORTS[i]);
        i := i + 1;
      }
    }

    /** `addExposedPort`: appends one port. */
    method AddExposedPort(port: Int32)
      modifies this`exposedPorts
      ensures exposedPorts == old(exposedPorts) + [port]
    {
      exposedPorts := exposedPorts + [port];
    }

    /** `configure`: puts the connection parameters the settings call for. */
    method Configure()
      modifies this`urlParameters
      ensures urlParameters == VerticaUrlParameters(old(urlParameters), username, password, loginTimeout,
                                                    keyStorePath, keyStorePassword, trustStorePath, trustStorePassword)
    {
      urlParameters := urlParameters["user" := username];
      if IsNotBlank(password) {
        urlParameters := urlParameters["password" := password.value];
      }
      ghost var withPassword := urlParameters;
      if loginTimeout.Some? {
        urlParameters := urlParameters["loginTimeout" := IntToString(loginTimeout.value)];
      }
      assert urlParameters == PutLoginTimeout(withPassword, loginTimeout);
      ghost var withTimeout := urlParameters;
      if IsNotBlank(keyStorePath) && IsNotBlank(keyStorePassword) {
        urlParameters := urlParameters["KeyStorePath" := keyStorePath.value];
        urlParameters := urlParameters["KeyStorePassword" := keyStorePassword.value];
      }
      assert urlParameters == PutStore(withTimeout, "KeyStorePath", "KeyStorePassword", keyStorePath, keyStorePassword);
      ghost var withKeyStore := urlParameters;
      if IsNotBlank(trustStorePath) && IsNotBlank(trustStorePassword) {
        urlParameters := urlParameters["TrustStorePath" := trustStorePath.value];
        urlParameters := urlParameters["TrustStorePassword" := trustStorePassword.value];
      }
      assert urlParameters
          == PutStore(withKeyStore, "TrustStorePath", "TrustStorePassword", trustStorePath, trustStorePassword);
    }

    /**
     * `getJdbcUrl`, given the host, the framework's port mapping and the
     * rendered URL parameters: the mapped database port, then the database.
     */
    function JdbcUrl(host: string, mappedPort: int -> int, params: string): (url: string)
      reads this
      ensures var prefix := "jdbc:vertica://" + host + ":" + IntToString(mappedPort(VERTICA_DATABASE_PORT)) + "/";
        && |url| >= |prefix| && url[..|prefix|] == prefix
        && url[|prefix|..] == databaseName + params
    {
      "jdbc:vertica://" + host + ":" + IntToString(mappedPort(VERTICA_DATABASE_PORT)) + "/" + databaseName + params
    }

    /**
     * The database name can be read back from the URL: it is what follows
     * the fixed prefix up to the `?` that starts the parameters, provided
     * the name has no `?` of its own.
     */
    lemma {:induction false} JdbcUrlReadsBack(host: string, mappedPort: int -> int, params: string)
      requires '?' !in databaseName
      requires params == [] || params[0] == '?'
      ensures var prefix := "jdbc:vertica://" + host + ":" + IntToString(mappedPort(VERTICA_DATABASE_PORT)) + "/";
        var url := JdbcUrl(host, mappedPort, params);
        && TakeUntil(url[|prefix|..], '?') == databaseName
        && url[|prefix| + |databaseName|..] == params
    {
      TakeUntilConcat(databaseName, params, '?');
    }

    method WithDatabaseName(databaseName: string) returns (self: VerticaContainer)
      modifies this`databaseName
      ensures self == this && this.databaseName == databaseName
    {
      this.databaseName := databaseName;
      self := this;
    }

    method WithUsername(username: string) returns (self: VerticaContainer)
      modifies this`username
      ensures self == this && this.username == username
    {
      this.username := username;
      self := this;
    }

    method WithPassword(password: Option<string>) returns (self: VerticaContainer)
      modifies this`password
      ensures self == this && this.password == password
    {
      this.password := password;
      self := this;
    }

    method WithLoginTimeout(loginTimeout: Option<Int32>) returns (self: VerticaContainer)
      modifies this`loginTimeout
      ensures self == this && this.loginTimeout == loginTimeout
    {
      this.loginTimeout := loginTimeout;
      self := this;
    }

    method WithKeyStorePath(keyStorePath: Option<string>) returns (self: VerticaContainer)
      modifies this`keyStorePath
      ensures self == this && this.keyStorePath == keyStorePath
    {
      this.keyStorePath := keyStorePath;
      self := this;
    }

    method WithKeyStorePassword(keyStorePassword: Option<string>) returns (self: VerticaContainer)
      modifies this`keyStorePassword
      ensures self == this && this.keyStorePassword == keyStorePassword
    {
      this.keyStorePassword := keyStorePassword;
      self := this;
    }

    method WithTrustStorePath(trustStorePath: Option<string>) returns (self: VerticaContainer)
      modifies this`trustStorePath
      ensures self == this && this.trustStorePath == trustStorePath
    {
      this.trustStorePath := trustStorePath;
      self := this;
    }

    method WithTrustStorePassword(trustStorePassword: Option<string>) returns (self: VerticaContainer)
      modifies this`trustStorePassword
      ensures self == this && this.trustStorePassword == trustStorePassword
    {
      this.trustStorePassword := trustStorePassword;
      self := this;
    }
  }
}
