/** The connection wizard's state hook: a database type, a provider and the
    credentials typed so far, with handlers that reset whatever depends on the
    value being changed. */
module Wizard {
  import opened Common
  import opened Registry

  /** The three state variables of the hook, as one value. */
  datatype WizardState = WizardState(
    dbType: DatabaseType,
    dbProvider: DatabaseProvider,
    credentials: Credentials)

  /** Nothing chosen and nothing typed. */
  const Initial := WizardState(NoType, NoProvider, map[])

  /** The state after choosing a type: provider and credentials start over. */
  function ChangeType(s: WizardState, t: DatabaseType): (r: WizardState)
    ensures r.dbType == t && r.dbProvider == NoProvider && r.credentials == map[]
  {
    WizardState(t, NoProvider, map[])
  }

  /** The state after choosing a provider: the type stays, credentials start over. */
  function ChangeProvider(s: WizardState, p: DatabaseProvider): (r: WizardState)
    ensures r.dbType == s.dbType && r.dbProvider == p && r.credentials == map[]
  {
    s.(dbProvider := p, credentials := map[])
  }

  /** The state after typing `value` into `field`: that one key changes. */
  function ChangeCredential(s: WizardState, field: string, value: string): (r: WizardState)
    ensures r.dbType == s.dbType && r.dbProvider == s.dbProvider
    ensures r.credentials.Keys == s.credentials.Keys + {field}
    ensures r.credentials[field] == value
    ensures forall k :: k in s.credentials && k != field ==> r.credentials[k] == s.credentials[k]
  {
    s.(credentials := s.credentials[field := value])
  }

  /** Typing the same value twice is the same as typing it once. */
  lemma CredentialWriteIdempotent(s: WizardState, field: string, value: string)
    ensures ChangeCredential(ChangeCredential(s, field, value), field, value) == ChangeCredential(s, field, value)
  {
  }

  /** A later write to a field replaces an earlier one. */
  lemma LaterCredentialWriteWins(s: WizardState, field: string, v: string, w: string)
    ensures ChangeCredential(ChangeCredential(s, field, v), field, w) == ChangeCredential(s, field, w)
  {
  }

  /** Writes to two different fields do not interfere. */
  lemma CredentialWritesCommute(s: WizardState, f: string, v: string, g: string, w: string)
    requires f != g
    ensures ChangeCredential(ChangeCredential(s, f, v), g, w) == ChangeCredential(ChangeCredential(s, g, w), f, v)
  {
  }

  /** Where the browser goes once the connection is made, or what it says instead. */
  datatype ConnectEffect = Navigate(url: string) | Alert(text: string)

  /** The route of the chat view for a connection id; an id missing from the
      reply is interpolated as `undefined`. */
  function ChatRoute(id: Option<string>): (url: string)
    ensures |url| >= |"/chat?connectionId="| && url[..|"/chat?connectionId="|] == "/chat?connectionId="
    ensures id.Some? ==> url[|"/chat?connectionId="|..] == id.value
    ensures id.None? ==> url[|"/chat?connectionId="|..] == "undefined"
  {
    "/chat?connectionId=" + (if id.Some? then id.value else "undefined")
  }

  /** What `handleConnect` does with the reply to its request: go to the chat view
      of the returned id, or alert the failure's message. */
  function ConnectOutcome(reply: Remote<Option<string>>): (e: ConnectEffect)
    ensures reply.Ok? <==> e.Navigate?
    ensures reply.Ok? ==> e == Navigate(ChatRoute(reply.value))
    ensures reply.Failed? ==> e.text == "Connection failed: " + reply.message
  {
    match reply
    case Ok(id) => Navigate(ChatRoute(id))
    case Failed(msg) => Alert("Connection failed: " + msg)
  }

  /** The connect button is on screen only once a provider is chosen. */
  predicate ConnectButtonShown(p: DatabaseProvider)
  {
    p != NoProvider
  }

  /** The hook's state variables and handlers. */
  class ConnectionHook {
    var dbType: DatabaseType
    var dbProvider: DatabaseProvider
    var credentials: Credentials

    /** The state variables as one value. */
    function State(): WizardState
      reads this
    {
      WizardState(dbType, dbProvider, credentials)
    }

    constructor ()
      ensures State() == Initial
    {
      dbType := NoType;
      dbProvider := NoProvider;
      credentials := map[];
    }

    /** `handleDbTypeChange`. */
    method HandleDbTypeChange(t: DatabaseType)
      modifies this
      ensures State() == ChangeType(old(State()), t)
    {
      dbType := t;
      dbProvider := NoProvider;
      credentials := map[];
    }

    /** `handleDbProviderChange`. */
    method HandleDbProviderChange(p: DatabaseProvider)
      modifies this
      ensures State() == ChangeProvider(old(State()), p)
    {
      dbProvider := p;
      credentials := map[];
    }

    /** `handleCredentialChange`. */
    method HandleCredentialChange(field: string, value: string)
      modifies this
      ensures State() == ChangeCredential(old(State()), field, value)
    {
      credentials := credentials[field := value];
    }

    /** `handleConnect`: sends the current type, provider and credentials and acts
        on `reply`, the outcome of that request. It changes no state variable,
        so a failed attempt leaves the form as it was. */
    method HandleConnect(reply: Remote<Option<string>>) returns (request: DatabaseConnection, effect: ConnectEffect)
      ensures request == DatabaseConnection(dbType, dbProvider, credentials)
      ensures effect == ConnectOutcome(reply)
    {
      request := DatabaseConnection(dbType, dbProvider, credentials);
      match reply {
        case Ok(id) =>
          effect := Navigate(ChatRoute(id));
        case Failed(msg) =>
          effect := Alert("Connection failed: " + msg);
      }
    }
  }
}
