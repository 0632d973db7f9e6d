/** How the wizard's requests fare at the backend: the wire form of a request,
    and the frontend field lists against the keys the connect helpers demand. */
module CrossChecks {
  import opened Common
  import opened Registry
  import opened WizardFlow
  import BackendModels
  import ConnectionService

  /** A wizard request as the backend receives it: the enum values by their names. */
  function ToBackend(c: DatabaseConnection): (b: BackendModels.DatabaseConnection)
    ensures b.credentials == c.credentials
    ensures b.dbProvider == ProviderName(c.dbProvider) && b.dbType == TypeName(c.dbType)
  {
    BackendModels.DatabaseConnection(TypeName(c.dbType), ProviderName(c.dbProvider), c.credentials)
  }

  /** The keys the backend helper for `p` requires, as a set. */
  function RequiredSet(p: DatabaseProvider): set<string>
  {
    set f | f in ConnectionService.RequiredFields(ProviderName(p))
  }

  /** Every request the wizard can send passes the backend's request validation. */
  lemma WizardRequestsValidate(c: DatabaseConnection)
    requires WellFormedRequest(c)
    ensures BackendModels.Validate(TypeName(c.dbType), ProviderName(c.dbProvider), c.credentials) == Some(ToBackend(c))
  {
    ProviderUnderExactlyOneType(c.dbProvider, c.dbType);
  }

  /** For mysql, postgresql and mongodb the form asks for exactly the keys the
      backend requires; for supabase the two sets have nothing in common. */
  lemma FieldListsAgainstBackend(p: DatabaseProvider)
    requires p != NoProvider
    ensures p != Supabase ==> FieldSet(p) == RequiredSet(p)
    ensures p == Supabase ==> FieldSet(p) !! RequiredSet(p)
  {
    FieldListsByProvider(p);
    if p == Supabase {
      assert FieldSet(p) == {"connection_string"};
      assert RequiredSet(p) == {"supabase_url", "supabase_anon_key"};
    } else if p == MongoDb {
      assert FieldSet(p) == {"connection_string"};
    } else {
      assert FieldSet(p) == {"host", "port", "username", "password", "database"};
    }
  }

  /** A supabase request built by the wizard can never connect: once the driver
      is installed it is refused for missing credentials and the table is unchanged. */
  lemma SupabaseWizardRequestRefused(c: DatabaseConnection, table: map<string, ConnectionService.Entry>,
                                     freshId: string, drivers: ConnectionService.Drivers,
                                     driver: ConnectionService.Driver)
    requires WellFormedRequest(c) && c.dbProvider == Supabase && drivers.supabase
    ensures ConnectionService.Connect(table, ToBackend(c), freshId, drivers, driver)
         == (BackendModels.Failure("Missing required credentials"), table)
  {
    FieldListsAgainstBackend(Supabase);
    assert "supabase_url" in ConnectionService.RequiredFields("supabase");
    assert "supabase_url" !in c.credentials;
  }

  /** A mysql, postgresql or mongodb request whose form was filled in completely
      gets past the key check: what happens next is up to the driver, given the
      form's values for the required keys. */
  lemma CompleteFormPassesKeyCheck(c: DatabaseConnection, table: map<string, ConnectionService.Entry>,
                                   freshId: string, drivers: ConnectionService.Drivers,
                                   driver: ConnectionService.Driver)
    requires WellFormedRequest(c) && c.dbProvider != Supabase
    requires c.credentials.Keys == FieldSet(c.dbProvider)
    requires ConnectionService.DriverInstalled(drivers, ProviderName(c.dbProvider))
    ensures ConnectionService.HasAll(ToBackend(c).credentials, ConnectionService.RequiredFields(ToBackend(c).dbProvider))
    ensures ConnectionService.Connect(table, ToBackend(c), freshId, drivers, driver).0.success <==>
      driver(ConnectionService.RequiredValues(ToBackend(c).credentials, ConnectionService.RequiredFields(ToBackend(c).dbProvider))).Ok?
  {
    FieldListsAgainstBackend(c.dbProvider);
    var b := ToBackend(c);
    assert b.dbProvider in BackendModels.DbProviders;
    assert ConnectionService.HasAll(b.credentials, ConnectionService.RequiredFields(b.dbProvider));
  }
}
