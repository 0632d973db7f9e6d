/** The backend's table of live connections and the connect operation that
    checks a request against the chosen driver and fills the table. */
module ConnectionService {
  import opened Common
  import opened BackendModels

  /** An opaque handle to an open driver connection. */
  type Handle = nat

  /** A table entry: the open connection, its provider and its type. */
  datatype Entry = Entry(connection: Handle, provider: string, dbType: string)

  /** Which optional drivers were importable when the service started. */
  datatype Drivers = Drivers(mysql: bool, postgresql: bool, supabase: bool, mongodb: bool)

  /** The outcome of a provider-specific connect helper. */
  datatype ConnectResult = Connected(connection: Handle) | ConnectError(error: string)

  predicate DriverInstalled(d: Drivers, provider: string)
  {
    match provider
    case "mysql" => d.mysql
    case "postgresql" => d.postgresql
    case "supabase" => d.supabase
    case "mongodb" => d.mongodb
    case _ => false
  }

  /** The name each provider's messages use. */
  function ProviderTitle(provider: string): string
  {
    match provider
    case "mysql" => "MySQL"
    case "postgresql" => "PostgreSQL"
    case "supabase" => "Supabase"
    case _ => "MongoDB"
  }

  /** The credential keys each helper insists on. */
  function RequiredFields(provider: string): (r: seq<string>)
    ensures provider == "mysql" || provider == "postgresql" ==>
      r == ["host", "port", "username", "password", "database"]
    ensures provider == "supabase" ==> r == ["supabase_url", "supabase_anon_key"]
    ensures provider == "mongodb" ==> r == ["connection_string"]
  {
    match provider
    case "mysql" => ["host", "port", "username", "password", "database"]
    case "postgresql" => ["host", "port", "username", "password", "database"]
    case "supabase" => ["supabase_url", "supabase_anon_key"]
    case _ => ["connection_string"]
  }

  /** The error a helper reports when a required key is missing. */
  function MissingMessage(provider: string): string
  {
    if provider == "mongodb" then "Missing connection string" else "Missing required credentials"
  }

  predicate HasAll(credentials: map<string, string>, fields: seq<string>)
  {
    forall f :: f in fields ==> f in credentials
  }

  /** The values of the given keys, in the order given: what a helper hands its
      driver. */
  function RequiredValues(credentials: map<string, string>, fields: seq<string>): (v: seq<string>)
    requires HasAll(credentials, fields)
    ensures |v| == |fields|
    ensures forall i :: 0 <= i < |fields| ==> v[i] == credentials[fields[i]]
  {
    seq(|fields|, i requires 0 <= i < |fields| => credentials[fields[i]])
  }

  /** A driver's connect and probe, given the required credential values in
      order: the open handle, or the text of what it raised (a port that does
      not parse as an integer included). */
  type Driver = seq<string> -> Remote<Handle>

  /** `_connect_<provider>`: the driver check, then the key check, then the
      driver's own connect and probe on the required values. */
  function ConnectProvider(provider: string, credentials: map<string, string>, drivers: Drivers,
                           driver: Driver): (r: ConnectResult)
    requires provider in DbProviders
    ensures !DriverInstalled(drivers, provider) ==>
      r == ConnectError(ProviderTitle(provider) + " driver not installed")
    ensures DriverInstalled(drivers, provider) && !HasAll(credentials, RequiredFields(provider)) ==>
      r == ConnectError(MissingMessage(provider))
    ensures r.Connected? <==>
      && DriverInstalled(drivers, provider) && HasAll(credentials, RequiredFields(provider))
      && driver(RequiredValues(credentials, RequiredFields(provider))).Ok?
    ensures r.Connected? ==> r.connection == driver(RequiredValues(credentials, RequiredFields(provider))).value
    ensures DriverInstalled(drivers, provider) && HasAll(credentials, RequiredFields(provider)) ==>
      var reply := driver(RequiredValues(credentials, RequiredFields(provider)));
      reply.Failed? ==> r == ConnectError(ProviderTitle(provider) + " connection failed: " + reply.message)
  {
    if !DriverInstalled(drivers, provider) then
      ConnectError(ProviderTitle(provider) + " driver not installed")
    else if !HasAll(credentials, RequiredFields(provider)) then
      ConnectError(MissingMessage(provider))
    else
      match driver(RequiredValues(credentials, RequiredFields(provider)))
      case Ok(h) => Connected(h)
      case Failed(m) => ConnectError(ProviderTitle(provider) + " connection failed: " + m)
  }

  /** `connect_database` on the table `table`, with `freshId` the generated id. */
  function Connect(table: map<string, Entry>, c: DatabaseConnection, freshId: string, drivers: Drivers,
                   driver: Driver): (ConnectionResponse, map<string, Entry>)
  {
    if c.dbProvider !in DbProviders then
      (Failure("Unsupported database provider"), table)
    else
      match ConnectProvider(c.dbProvider, c.credentials, drivers, driver)
      case Connected(h) =>
        (ConnectionResponse(true, "Connected successfully", Some(freshId)),
         table[freshId := Entry(h, c.dbProvider, c.dbType)])
      case ConnectError(e) => (Failure(e), table)
  }

  /** Success adds one entry under the returned id recording provider and type;
      failure returns no id and leaves the table as it was. */
  lemma ConnectChangesTableOnlyOnSuccess(table: map<string, Entry>, c: DatabaseConnection, freshId: string,
                                         drivers: Drivers, driver: Driver)
    ensures var (resp, t) := Connect(table, c, freshId, drivers, driver);
      && (resp.success <==> resp.connectionId.Some?)
      && (resp.success ==> resp.connectionId == Some(freshId) && resp.message == "Connected successfully"
                           && freshId in t && t[freshId].provider == c.dbProvider && t[freshId].dbType == c.dbType
                           && t == table[freshId := t[freshId]])
      && (!resp.success ==> t == table)
  {
  }

  /** With a fresh id, a successful connect grows the table by exactly one key. */
  lemma ConnectAddsOneKey(table: map<string, Entry>, c: DatabaseConnection, freshId: string,
                          drivers: Drivers, driver: Driver)
    requires freshId !in table
    ensures var (resp, t) := Connect(table, c, freshId, drivers, driver);
      resp.success ==> t.Keys == table.Keys + {freshId} && |t| == |table| + 1
  {
  }

  /** A provider outside the four fails and leaves the table as it was. */
  lemma UnsupportedProvider(table: map<string, Entry>, c: DatabaseConnection, freshId: string,
                            drivers: Drivers, driver: Driver)
    requires c.dbProvider !in DbProviders
    ensures Connect(table, c, freshId, drivers, driver) == (Failure("Unsupported database provider"), table)
  {
  }

  /** A missing driver is reported whatever the credentials hold. */
  lemma DriverCheckedBeforeCredentials(table: map<string, Entry>, c: DatabaseConnection, freshId: string,
                                       drivers: Drivers, driver: Driver)
    requires c.dbProvider in DbProviders && !DriverInstalled(drivers, c.dbProvider)
    ensures Connect(table, c, freshId, drivers, driver).0.message == ProviderTitle(c.dbProvider) + " driver not installed"
  {
  }

  /** Keys outside the required ones change nothing: two credential maps that
      hold the same required keys with the same values give the same outcome,
      whatever else they hold. */
  lemma ExtraKeysIgnored(provider: string, c1: map<string, string>, c2: map<string, string>,
                         drivers: Drivers, driver: Driver)
    requires provider in DbProviders
    requires forall f :: f in RequiredFields(provider) ==> (f in c1 <==> f in c2)
    requires forall f :: f in RequiredFields(provider) && f in c1 ==> c1[f] == c2[f]
    ensures ConnectProvider(provider, c1, drivers, driver) == ConnectProvider(provider, c2, drivers, driver)
  {
    var fields := RequiredFields(provider);
    if HasAll(c1, fields) {
      assert RequiredValues(c1, fields) == RequiredValues(c2, fields);
    }
  }

  /** The service object and its connection table. */
  class DatabaseService {
    var connections: map<string, Entry>

    constructor ()
      ensures connections == map[]
    {
      connections := map[];
    }

    /** `connect_database`; `freshId` is the generated id, `drivers` the installed
        drivers and `driver` the chosen driver's own connect and probe. */
    method ConnectDatabase(c: DatabaseConnection, freshId: string, drivers: Drivers, driver: Driver)
      returns (resp: ConnectionResponse)
      modifies this
      ensures (resp, connections) == Connect(old(connections), c, freshId, drivers, driver)
    {
      if c.dbProvider !in DbProviders {
        return Failure("Unsupported database provider");
      }
      var result := ConnectProvider(c.dbProvider, c.credentials, drivers, driver);
      if result.Connected? {
        connections := connections[freshId := Entry(result.connection, c.dbProvider, c.dbType)];
        resp := ConnectionResponse(true, "Connected successfully", Some(freshId));
      } else {
        resp := Failure(result.error);
      }
    }
  }
}
