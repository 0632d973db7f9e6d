/** The frontend's connection vocabulary and its two constant lookup tables:
    which providers belong to a database type, and which credential fields,
    in which order, a provider asks for. */
module Registry {
  import opened Common

  /** `DatabaseType`; `NoType` is the empty string, "nothing chosen yet". */
  datatype DatabaseType = NoType | Sql | NoSql

  /** `DatabaseProvider`; `NoProvider` is the empty string. */
  datatype DatabaseProvider = NoProvider | MySql | PostgreSql | Supabase | MongoDb

  /** `Credentials`: arbitrary string keys to string values. */
  type Credentials = map<string, string>

  /** What the wizard submits: a type, a provider and credentials, nothing else
      (no display name, no owning user). */
  datatype DatabaseConnection = DatabaseConnection(
    dbType: DatabaseType,
    dbProvider: DatabaseProvider,
    credentials: Credentials)

  /** The string each type value stands for. */
  function TypeName(t: DatabaseType): string
  {
    match t
    case NoType => ""
    case Sql => "sql"
    case NoSql => "nosql"
  }

  /** The string each provider value stands for. */
  function ProviderName(p: DatabaseProvider): string
  {
    match p
    case NoProvider => ""
    case MySql => "mysql"
    case PostgreSql => "postgresql"
    case Supabase => "supabase"
    case MongoDb => "mongodb"
  }

  /** Reads back a provider from its string; anything else is not a provider. */
  function ParseProvider(s: string): (r: Option<DatabaseProvider>)
    ensures r.Some? ==> ProviderName(r.value) == s
  {
    if s == "" then Some(NoProvider)
    else if s == "mysql" then Some(MySql)
    else if s == "postgresql" then Some(PostgreSql)
    else if s == "supabase" then Some(Supabase)
    else if s == "mongodb" then Some(MongoDb)
    else None
  }

  /** Provider names are distinct, and the empty one is the unset value. */
  lemma ProviderNameRoundTrip(p: DatabaseProvider)
    ensures ParseProvider(ProviderName(p)) == Some(p)
    ensures ProviderName(p) == "" <==> p == NoProvider
  {
  }

  /** Type names are distinct, and the empty one is the unset value. */
  lemma TypeNameInjective(t: DatabaseType, u: DatabaseType)
    ensures TypeName(t) == TypeName(u) ==> t == u
    ensures TypeName(t) == "" <==> t == NoType
  {
  }

  /** `DB_PROVIDERS`: the providers of each database type, in display order. */
  const DbProviders: map<DatabaseType, seq<DatabaseProvider>> :=
    map[Sql := [MySql, PostgreSql, Supabase], NoSql := [MongoDb]]

  /** `CREDENTIAL_FIELDS`: the credential fields of each provider, in form order. */
  const CredentialFieldTable: map<DatabaseProvider, seq<string>> :=
    map[
      MySql := ["host", "port", "username", "password", "database"],
      PostgreSql := ["host", "port", "username", "password", "database"],
      Supabase := ["connection_string"],
      MongoDb := ["connection_string"]]

  /** The providers offered for `t`; nothing for a type without an entry. */
  function ProvidersOf(t: DatabaseType): seq<DatabaseProvider>
  {
    if t in DbProviders then DbProviders[t] else []
  }

  /** The registry's field list for `p`; nothing for a provider without an entry. */
  function FieldsOf(p: DatabaseProvider): seq<string>
  {
    if p in CredentialFieldTable then CredentialFieldTable[p] else []
  }

  /** The field names of `p` as a set. */
  function FieldSet(p: DatabaseProvider): set<string>
  {
    set f | f in FieldsOf(p)
  }

  /** No element occurs twice. */
  predicate NoDuplicates<T(==)>(s: seq<T>)
  {
    forall i, j :: 0 <= i < j < |s| ==> s[i] != s[j]
  }

  /** The type a (set) provider is listed under. */
  function TypeOf(p: DatabaseProvider): DatabaseType
  {
    match p
    case NoProvider => NoType
    case MySql => Sql
    case PostgreSql => Sql
    case Supabase => Sql
    case MongoDb => NoSql
  }

  /** Every provider other than the unset one is listed under exactly one type,
      and the unset one under none. */
  lemma ProviderUnderExactlyOneType(p: DatabaseProvider, t: DatabaseType)
    ensures p in ProvidersOf(t) <==> p != NoProvider && t == TypeOf(p)
  {
  }

  /** The table of fields has an entry for exactly the four set providers, so every
      provider offered for a type has fields, and every field list is free of duplicates. */
  lemma CredentialTableCoversProviders(p: DatabaseProvider)
    ensures p in CredentialFieldTable <==> p != NoProvider
    ensures p != NoProvider ==> |FieldsOf(p)| > 0 && NoDuplicates(FieldsOf(p))
  {
  }

  /** The SQL servers ask for host, port, username, password and database;
      supabase and mongodb ask only for a connection string. */
  lemma FieldListsByProvider(p: DatabaseProvider)
    ensures p == MySql || p == PostgreSql ==>
      FieldsOf(p) == ["host", "port", "username", "password", "database"]
    ensures p == Supabase || p == MongoDb ==> FieldsOf(p) == ["connection_string"]
    ensures p == NoProvider ==> FieldSet(p) == {}
  {
  }
}
