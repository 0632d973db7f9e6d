/** The backend's request and response records for `/api/database/connect`, and
    the HTTP outcome every route produces. */
module BackendModels {
  import opened Common

  /** The literals the request model accepts for `db_type`. */
  const DbTypes: set<string> := {"sql", "nosql"}

  /** The literals the request model accepts for `db_provider`. */
  const DbProviders: set<string> := {"mysql", "postgresql", "supabase", "mongodb"}

  /** A connect request. The fields hold strings so that the service can also be
      given a provider outside the four literals. */
  datatype DatabaseConnection = DatabaseConnection(
    dbType: string,
    dbProvider: string,
    credentials: map<string, string>)

  /** The reply of the connection service; the id is absent unless it says so. */
  datatype ConnectionResponse = ConnectionResponse(
    success: bool,
    message: string,
    connectionId: Option<string>)

  /** What a route answers: a body, or an HTTP error with its status and detail. */
  datatype HttpResult<T> = Success(body: T) | HttpError(status: int, detail: string)

  /** Request validation: the body is accepted exactly when both literals are among
      the allowed ones; the credentials may be any string-to-string map. */
  function Validate(dbType: string, dbProvider: string, credentials: map<string, string>): (r: Option<DatabaseConnection>)
    ensures r.Some? <==> dbType in DbTypes && dbProvider in DbProviders
    ensures r.Some? ==> r.value.dbType == dbType && r.value.dbProvider == dbProvider
                         && r.value.credentials == credentials
  {
    if dbType in DbTypes && dbProvider in DbProviders then
      Some(DatabaseConnection(dbType, dbProvider, credentials))
    else None
  }

  /** A response built without an id carries none. */
  function Failure(message: string): (r: ConnectionResponse)
    ensures !r.success && r.message == message && r.connectionId.None?
  {
    ConnectionResponse(false, message, None)
  }

  /** Nothing ties the provider to the type: every provider is accepted with
      either type, `mongodb` with `sql` included. */
  lemma NoTypeProviderTie(t: string, p: string, c: map<string, string>)
    requires t in DbTypes && p in DbProviders
    ensures Validate(t, p, c).Some?
    ensures Validate("sql", "mongodb", c).Some? && Validate("nosql", "mysql", c).Some?
  {
  }
}
