/** The `/api/database` routes over the service's connection table: connect,
    status and disconnect. */
module DatabaseRouter {
  import opened Common
  import opened BackendModels
  import opened ConnectionService

  /** The body of a status reply. */
  datatype StatusBody = StatusBody(status: string, connectionId: string)

  /** The connect route: a failed result becomes a 400 carrying its message; a
      successful one is returned as it is. */
  function RouteConnect(resp: ConnectionResponse): (r: HttpResult<ConnectionResponse>)
    ensures r.Success? <==> resp.success
    ensures r.Success? ==> r.body == resp
    ensures r.HttpError? ==> r.status == 400 && r.detail == resp.message
  {
    if resp.success then Success(resp) else HttpError(400, resp.message)
  }

  /** The status route: 404 for an unknown id, otherwise active with the same id. */
  function Status(table: map<string, Entry>, id: string): (r: HttpResult<StatusBody>)
    ensures r.Success? <==> id in table
    ensures r.Success? ==> r.body == StatusBody("active", id)
    ensures r.HttpError? ==> r.status == 404 && r.detail == "Connection not found"
  {
    if id !in table then HttpError(404, "Connection not found")
    else Success(StatusBody("active", id))
  }

  /** Closing is attempted for these providers only. */
  predicate ClosedOnDisconnect(provider: string)
  {
    provider in ["mysql", "postgresql", "mongodb"]
  }

  /** What a disconnect does: its reply, the handle it tries to close, and the table after. */
  datatype DisconnectStep = DisconnectStep(reply: HttpResult<string>, closed: Option<Handle>, table: map<string, Entry>)

  /** The disconnect route. A close that throws is swallowed, so the outcome is
      the same whether or not it does. */
  function Disconnect(table: map<string, Entry>, id: string): (r: DisconnectStep)
    ensures r.reply.Success? <==> id in table
    ensures r.reply.Success? ==> r.reply.body == "Disconnected successfully" && r.table == table - {id}
    ensures r.reply.HttpError? ==>
      r.reply == HttpError(404, "Connection not found") && r.table == table && r.closed.None?
    ensures r.closed.Some? <==> id in table && ClosedOnDisconnect(table[id].provider)
    ensures r.closed.Some? ==> r.closed.value == table[id].connection
  {
    if id !in table then DisconnectStep(HttpError(404, "Connection not found"), None, table)
    else
      var entry := table[id];
      var closed := if ClosedOnDisconnect(entry.provider) then Some(entry.connection) else None;
      DisconnectStep(Success("Disconnected successfully"), closed, table - {id})
  }

  /** A disconnect leaves every other entry as it was. */
  lemma DisconnectKeepsOthers(table: map<string, Entry>, id: string, k: string)
    requires k != id
    ensures k in Disconnect(table, id).table <==> k in table
    ensures k in table ==> Disconnect(table, id).table[k] == table[k]
  {
  }

  /** Disconnecting the same id twice answers 404 the second time. */
  lemma SecondDisconnectIsNotFound(table: map<string, Entry>, id: string)
    ensures Disconnect(Disconnect(table, id).table, id).reply == HttpError(404, "Connection not found")
    ensures Status(Disconnect(table, id).table, id).HttpError?
  {
  }

  /** After a successful connect the status route reports the new id as active. */
  lemma ConnectedIdIsActive(table: map<string, Entry>, c: DatabaseConnection, freshId: string,
                            drivers: Drivers, driver: Driver)
    ensures var (resp, t) := Connect(table, c, freshId, drivers, driver);
      resp.success ==> Status(t, freshId) == Success(StatusBody("active", freshId))
  {
    ConnectChangesTableOnlyOnSuccess(table, c, freshId, drivers, driver);
  }

  /** The detail of the 422 reply the framework gives a body that does not fit
      the request model. */
  const InvalidBody := "request body does not match DatabaseConnection"

  /** `POST /connect` as served: the framework validates the body against the
      request model first, and only a valid body reaches the handler, whose
      failed result becomes a 400. The second component is the table after. */
  function ConnectEndpoint(table: map<string, Entry>, dbType: string, dbProvider: string,
                           credentials: map<string, string>, freshId: string, drivers: Drivers,
                           driver: Driver): (r: (HttpResult<ConnectionResponse>, map<string, Entry>))
    ensures Validate(dbType, dbProvider, credentials).None? ==> r == (HttpError(422, InvalidBody), table)
    ensures r.0.Success? <==>
      && Validate(dbType, dbProvider, credentials).Some?
      && Connect(table, Validate(dbType, dbProvider, credentials).value, freshId, drivers, driver).0.success
    ensures r.0.Success? ==> r.0.body.connectionId == Some(freshId) && freshId in r.1
    ensures r.0.HttpError? ==> r.1 == table
  {
    match Validate(dbType, dbProvider, credentials)
    case None => (HttpError(422, InvalidBody), table)
    case Some(c) =>
      var (resp, t) := Connect(table, c, freshId, drivers, driver);
      ConnectChangesTableOnlyOnSuccess(table, c, freshId, drivers, driver);
      (RouteConnect(resp), t)
  }

  /** Through the route, the service's unsupported-provider branch is never
      reached: a provider outside the four is refused by validation with 422. */
  lemma UnsupportedProviderUnreachable(table: map<string, Entry>, dbType: string, dbProvider: string,
                                       credentials: map<string, string>, freshId: string, drivers: Drivers,
                                       driver: Driver)
    ensures ConnectEndpoint(table, dbType, dbProvider, credentials, freshId, drivers, driver).0
         != HttpError(400, "Unsupported database provider")
    ensures dbProvider !in DbProviders ==>
      ConnectEndpoint(table, dbType, dbProvider, credentials, freshId, drivers, driver).0.status == 422
  {
    match Validate(dbType, dbProvider, credentials)
    case None =>
    case Some(c) =>
      var e := ConnectProvider(c.dbProvider, c.credentials, drivers, driver);
      if e.ConnectError? {
        assert e.error[0] != 'U';
      }
  }

  /** `POST /connect`. */
  method ConnectRoute(svc: DatabaseService, dbType: string, dbProvider: string, credentials: map<string, string>,
                      freshId: string, drivers: Drivers, driver: Driver)
    returns (r: HttpResult<ConnectionResponse>)
    modifies svc
    ensures (r, svc.connections)
         == ConnectEndpoint(old(svc.connections), dbType, dbProvider, credentials, freshId, drivers, driver)
  {
    var body := Validate(dbType, dbProvider, credentials);
    if body.None? {
      return HttpError(422, InvalidBody);
    }
    var resp := svc.ConnectDatabase(body.value, freshId, drivers, driver);
    if !resp.success {
      return HttpError(400, resp.message);
    }
    r := Success(resp);
  }

  /** `GET /status/{id}`: reads the table and changes nothing. */
  method CheckConnectionStatus(svc: DatabaseService, id: string) returns (r: HttpResult<StatusBody>)
    ensures r.Success? <==> id in svc.connections
    ensures r == Status(svc.connections, id)
  {
    if id !in svc.connections {
      return HttpError(404, "Connection not found");
    }
    r := Success(StatusBody("active", id));
  }

  /** `DELETE /disconnect/{id}`: `closed` is the handle whose close is attempted. */
  method DisconnectDatabase(svc: DatabaseService, id: string)
    returns (r: HttpResult<string>, closed: Option<Handle>)
    modifies svc
    ensures Disconnect(old(svc.connections), id) == DisconnectStep(r, closed, svc.connections)
  {
    if id !in svc.connections {
      return HttpError(404, "Connection not found"), None;
    }
    var info := svc.connections[id];
    closed := None;
    if info.provider in ["mysql", "postgresql"] {
      closed := Some(info.connection);
    } else if info.provider == "mongodb" {
      closed := Some(info.connection);
    }
    svc.connections := svc.connections - {id};
    r := Success("Disconnected successfully");
  }
}
