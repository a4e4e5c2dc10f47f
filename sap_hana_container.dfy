/**
 * The SAP HANA Express container: the port numbers SAP derives from an
 * instance id and a tenant id, the ports the container exposes, the URL
 * parameters it configures and its JDBC URL.
 */
module SapHana {
  import opened JavaLang
  import opened UrlParameters

  /** The instance and tenant ids of the default image. */
  const INSTANCE_ID: Int32 := 90
  const TENANT_ID: Int32 := 1

  const BASE_INDEX_SERVER_DATABASE_PORT: int := 30013
  const BASE_SYSTEM_DATABASE_PORT: int := 30017
  const BASE_TENANT_DATABASE_PORT: int := 30040
  const HOST_AGENT_HTTP_PORT: Int32 := 1128
  const HOST_AGENT_HTTPS_PORT: Int32 := 1129
  const BASE_PLATFORM_PORT: int := 8000
  const BASE_SAP_CTRL_PORT: int := 50013

  const DEFAULT_TENANT_DATABASE: string := "HXE"
  const DEFAULT_USER: string := "hxeadm"
  const DEFAULT_PASSWORD: string := "HXEHana1"

  /** An instance id in the documented range. */
  predicate IsInstanceId(id: int) {
    1 <= id <= 99
  }

  /** Index server port: 3<instance>13, computed in Java `int` arithmetic. */
  function IndexServerDatabasePort(instanceId: Int32): (p: Int32)
    ensures (p - (BASE_INDEX_SERVER_DATABASE_PORT + 100 * instanceId)) % 0x1_0000_0000 == 0
    ensures IsInstanceId(instanceId) ==> p == 30013 + 100 * instanceId
  {
    Wrap32(BASE_INDEX_SERVER_DATABASE_PORT + 100 * instanceId)
  }

  /** System database port: 3<instance>17. */
  function SystemDatabasePort(instanceId: Int32): (p: Int32)
    ensures (p - (BASE_SYSTEM_DATABASE_PORT + 100 * instanceId)) % 0x1_0000_0000 == 0
    ensures IsInstanceId(instanceId) ==> p == 30017 + 100 * instanceId
  {
    Wrap32(BASE_SYSTEM_DATABASE_PORT + 100 * instanceId)
  }

  /** Tenant database port: 3<instance>40 plus the tenant id. */
  function TenantDatabasePort(instanceId: Int32, tenantId: Int32): (p: Int32)
    ensures (p - (BASE_TENANT_DATABASE_PORT + 100 * instanceId + tenantId)) % 0x1_0000_0000 == 0
    ensures IsInstanceId(instanceId) && 1 <= tenantId <= 99 ==> p == 30040 + 100 * instanceId + tenantId
  {
    Wrap32(BASE_TENANT_DATABASE_PORT + 100 * instanceId + tenantId)
  }

  /** SAP Web Dispatcher port: 80<instance>. */
  function HanaPlatformPort(instanceId: Int32): (p: Int32)
    ensures (p - (BASE_PLATFORM_PORT + instanceId)) % 0x1_0000_0000 == 0
    ensures IsInstanceId(instanceId) ==> p == 8000 + instanceId
  {
    Wrap32(BASE_PLATFORM_PORT + instanceId)
  }

  /** Instance agent port: 5<instance>13. */
  function SapCtrlPort(instanceId: Int32): (p: Int32)
    ensures (p - (BASE_SAP_CTRL_PORT + 100 * instanceId)) % 0x1_0000_0000 == 0
    ensures IsInstanceId(instanceId) ==> p == 50013 + 100 * instanceId
  {
    Wrap32(BASE_SAP_CTRL_PORT + 100 * instanceId)
  }

  /** `SAP_HANA_PORTS`: the system database and first tenant ports of the default instance. */
  const SAP_HANA_PORTS: seq<Int32> := [
    IndexServerDatabasePort(INSTANCE_ID),
    SystemDatabasePort(INSTANCE_ID),
    TenantDatabasePort(INSTANCE_ID, TENANT_ID),
    HOST_AGENT_HTTP_PORT,
    HOST_AGENT_HTTPS_PORT,
    HanaPlatformPort(INSTANCE_ID),
    SapCtrlPort(INSTANCE_ID)
  ]

  lemma SapHanaPortsValues()
    ensures SAP_HANA_PORTS == [39013, 39017, 39041, 1128, 1129, 8090, 59013]
  {
  }

  /** The ports the constructor exposes, in order: tenant ports for tenants 1 to 5, whatever the tenant id. */
  function ExposedPorts(instanceId: Int32): (ports: seq<Int32>)
    ensures |ports| == 11
  {
    [ IndexServerDatabasePort(instanceId),
      SystemDatabasePort(instanceId),
      TenantDatabasePort(instanceId, 1),
      TenantDatabasePort(instanceId, 2),
      TenantDatabasePort(instanceId, 3),
      TenantDatabasePort(instanceId, 4),
      TenantDatabasePort(instanceId, 5),
      HanaPlatformPort(instanceId),
      SapCtrlPort(instanceId),
      HOST_AGENT_HTTP_PORT,
      HOST_AGENT_HTTPS_PORT ]
  }

  /** For a documented instance id the eleven exposed ports are pairwise distinct. */
  lemma {:induction false} ExposedPortsDistinct(instanceId: Int32)
    requires IsInstanceId(instanceId)
    ensures var ports := ExposedPorts(instanceId);
      forall i, j :: 0 <= i < j < |ports| ==> ports[i] != ports[j]
  {
    var ports := ExposedPorts(instanceId);
    var b := 100 * instanceId;
    assert ports == [30013 + b, 30017 + b, 30041 + b, 30042 + b, 30043 + b, 30044 + b, 30045 + b,
                     8000 + instanceId, 50013 + b, 1128, 1129];
  }

  /**
   * The tenant port the JDBC URL uses is among the exposed ports exactly
   * when the tenant id is at most 5.
   */
  lemma {:induction false} TenantPortExposed(instanceId: Int32, tenantId: Int32)
    requires IsInstanceId(instanceId) && 1 <= tenantId <= 99
    ensures TenantDatabasePort(instanceId, tenantId) in ExposedPorts(instanceId) <==> tenantId <= 5
  {
    var ports := ExposedPorts(instanceId);
    var b := 100 * instanceId;
    assert ports == [30013 + b, 30017 + b, 30041 + b, 30042 + b, 30043 + b, 30044 + b, 30045 + b,
                     8000 + instanceId, 50013 + b, 1128, 1129];
    if tenantId <= 5 {
      assert ports[1 + tenantId] == TenantDatabasePort(instanceId, tenantId);
    }
  }

  /**
   * The parameters `configure` puts: the database name and the password
   * when they are not blank, the user always.
   */
  function HanaUrlParameters(params: map<string, string>, databaseName: string, username: string, password: string)
    : (r: map<string, string>)
    ensures PutWhen(params, r, "databaseName", IsNotBlank(Some(databaseName)), databaseName)
    ensures "user" in r && r["user"] == username
    ensures PutWhen(params, r, "password", IsNotBlank(Some(password)), password)
    ensures OthersUnchanged(params, r, {"databaseName", "user", "password"})
  {
    PutIfNotBlank(PutIfNotBlank(params, "databaseName", Some(databaseName))["user" := username], "password", Some(password))
  }

  /** With the fixed credentials of the image all three parameters are put. */
  lemma DefaultCredentialsAllPut(params: map<string, string>)
    ensures var r := HanaUrlParameters(params, DEFAULT_TENANT_DATABASE, DEFAULT_USER, DEFAULT_PASSWORD);
      && "databaseName" in r && r["databaseName"] == "HXE"
      && r["user"] == "hxeadm"
      && "password" in r && r["password"] == "HXEHana1"
  {
    assert !IsWhitespace(DEFAULT_TENANT_DATABASE[0]);
    assert !IsWhitespace(DEFAULT_PASSWORD[0]);
  }

  class SapHanaContainer {
    const instanceId: Int32
    const tenantId: Int32
    const databaseName: string
    const username: string
    const password: string
    var exposedPorts: seq<Int32>
    var urlParameters: map<string, string>

    /** The container for an instance and a tenant, exposing the eleven ports of the instance. */
    constructor (instanceId: Int32, tenantId: Int32)
      ensures this.instanceId == instanceId && this.tenantId == tenantId
      ensures databaseName == DEFAULT_TENANT_DATABASE && username == DEFAULT_USER && password == DEFAULT_PASSWORD
      ensures exposedPorts == ExposedPorts(instanceId) && urlParameters == map[]
    {
      this.instanceId := instanceId;
      this.tenantId := tenantId;
      databaseName := DEFAULT_TENANT_DATABASE;
      username := DEFAULT_USER;
      password := DEFAULT_PASSWORD;
      exposedPorts := [];
      urlParameters := map[];
      new;
      ExposeInstancePorts();
    }

    /** The container for the default image: instance 90, tenant 1. */
    constructor Default()
      ensures instanceId == INSTANCE_ID && tenantId == TENANT_ID
      ensures databaseName == DEFAULT_TENANT_DATABASE && username == DEFAULT_USER && password == DEFAULT_PASSWORD
      ensures exposedPorts == ExposedPorts(INSTANCE_ID) && urlParameters == map[]
    {
      instanceId := INSTANCE_ID;
      tenantId := TENANT_ID;
      databaseName := DEFAULT_TENANT_DATABASE;
      username := DEFAULT_USER;
      password := DEFAULT_PASSWORD;
      exposedPorts := [];
      urlParameters := map[];
      new;
      ExposeInstancePorts();
    }

    /** `addExposedPort`: appends one port. */
    method AddExposedPort(port: Int32)
      modifies this`exposedPorts
      ensures exposedPorts == old(exposedPorts) + [port]
    {
      exposedPorts := exposedPorts + [port];
    }

    /** The eleven `addExposedPort` calls of the constructor. */
    method ExposeInstancePorts()
      modifies this`exposedPorts
      ensures exposedPorts == old(exposedPorts) + ExposedPorts(instanceId)
    {
      AddExposedPort(IndexServerDatabasePort(instanceId));
      AddExposedPort(SystemDatabasePort(instanceId));
      AddExposedPort(TenantDatabasePort(instanceId, 1));
      AddExposedPort(TenantDatabasePort(instanceId, 2));
      AddExposedPort(TenantDatabasePort(instanceId, 3));
      AddExposedPort(TenantDatabasePort(instanceId, 4));
      AddExposedPort(TenantDatabasePort(instanceId, 5));
      AddExposedPort(HanaPlatformPort(instanceId));
      AddExposedPort(SapCtrlPort(instanceId));
      AddExposedPort(HOST_AGENT_HTTP_PORT);
      AddExposedPort(HOST_AGENT_HTTPS_PORT);
    }

    /** `configure`: puts the connection parameters. */
    method Configure()
      modifies this`urlParameters
      ensures urlParameters == HanaUrlParameters(old(urlParameters), databaseName, username, password)
    {
      if IsNotBlank(Some(databaseName)) {
        urlParameters := urlParameters["databaseName" := databaseName];
      }
      urlParameters := urlParameters["user" := username];
      if IsNotBlank(Some(password)) {
        urlParameters := urlParameters["password" := password];
      }
    }

    /** `getMappedTenantDatabasePort`: the host port mapped to this instance's and tenant's port. */
    function MappedTenantDatabasePort(mappedPort: int -> int): (p: int)
      reads this
      ensures p == mappedPort(TenantDatabasePort(instanceId, tenantId))
    {
      mappedPort(TenantDatabasePort(instanceId, tenantId))
    }

    /**
     * `getJdbcUrl`, given the host, the framework's port mapping and the
     * rendered URL parameters.
     */
    function JdbcUrl(host: string, mappedPort: int -> int, params: string): (url: string)
      reads this
      ensures var port := IntToString(mappedPort(TenantDatabasePort(instanceId, tenantId)));
        url == "jdbc:sap://" + host + ":" + port + "/" + params
    {
      "jdbc:sap://" + host + ":" + IntToString(MappedTenantDatabasePort(mappedPort)) + "/" + params
    }

    /**
     * The mapped tenant port and the parameters can be read back from the
     * URL: after the host and its colon, the port runs up to the first `/`.
     */
    lemma {:induction false} JdbcUrlReadsBack(host: string, mappedPort: int -> int, params: string)
      ensures var hostPart := "jdbc:sap://" + host + ":";
        var port := IntToString(mappedPort(TenantDatabasePort(instanceId, tenantId)));
        var url := JdbcUrl(host, mappedPort, params);
        && TakeUntil(url[|hostPart|..], '/') == port
        && url[|hostPart| + |port| + 1..] == params
    {
      var p := mappedPort(TenantDatabasePort(instanceId, tenantId));
      var port := IntToString(p);
      IntToStringChars(p);
      assert '/' !in port;
      TakeUntilConcat(port, "/" + params, '/');
      var hostPart := "jdbc:sap://" + host + ":";
      assert JdbcUrl(host, mappedPort, params) == hostPart + (port + ("/" + params));
    }
  }
}
