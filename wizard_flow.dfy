/** The wizard page as the user drives it: every change goes through what the
    type selector, the provider selector, the credential form and the connect
    button put on screen, and reaches the hook's handlers. */
module WizardFlow {
  import opened Common
  import opened Registry
  import opened Wizard
  import opened ProviderSelector
  import opened CredentialFields

  /** One user action on the page. `option` and `index` count the rendered
      options and inputs; `reply` is how the connect request ends. */
  datatype UiEvent =
    | PickType(t: DatabaseType)
    | PickProvider(option: nat)
    | EditField(index: nat, value: string)
    | ClickConnect(reply: Remote<Option<string>>)

  /** The new state, the request sent to the server (if any) and what the page
      did with the reply. */
  datatype StepResult = StepResult(
    state: WizardState,
    sent: Option<DatabaseConnection>,
    effect: Option<ConnectEffect>)

  /** One action. Clicking on something that is not on screen does nothing. */
  function Step(s: WizardState, e: UiEvent): StepResult
  {
    match e
    case PickType(t) => StepResult(ChangeType(s, t), None, None)
    case PickProvider(i) =>
      (match OnSelect(s.dbType, i)
       case Some(p) => StepResult(ChangeProvider(s, p), None, None)
       case None => StepResult(s, None, None))
    case EditField(i, v) =>
      (match OnEdit(s.dbProvider, s.credentials, i, v)
       case Some(edit) => StepResult(ChangeCredential(s, edit.0, edit.1), None, None)
       case None => StepResult(s, None, None))
    case ClickConnect(reply) =>
      if ConnectButtonShown(s.dbProvider) then
        StepResult(s, Some(DatabaseConnection(s.dbType, s.dbProvider, s.credentials)), Some(ConnectOutcome(reply)))
      else StepResult(s, None, None)
  }

  /** A run of actions: the final state and every request sent, in order. */
  function Run(s: WizardState, es: seq<UiEvent>): (WizardState, seq<DatabaseConnection>)
    decreases |es|
  {
    if es == [] then (s, [])
    else
      var st := Step(s, es[0]);
      var rest := Run(st.state, es[1..]);
      (rest.0, (if st.sent.Some? then [st.sent.value] else []) + rest.1)
  }

  /** The chosen provider belongs to the chosen type, and every credential key
      is a field the registry lists for that provider. */
  predicate Consistent(s: WizardState)
  {
    && (s.dbProvider != NoProvider ==> s.dbProvider in ProvidersOf(s.dbType))
    && s.credentials.Keys <= FieldSet(s.dbProvider)
  }

  /** A request names a provider of its type and only that provider's fields. */
  predicate WellFormedRequest(r: DatabaseConnection)
  {
    && r.dbProvider != NoProvider
    && r.dbProvider in ProvidersOf(r.dbType)
    && r.credentials.Keys <= FieldSet(r.dbProvider)
  }

  /** One action keeps the state consistent, and a request it sends is well formed;
      with no provider chosen no request is sent at all. */
  lemma StepKeepsConsistent(s: WizardState, e: UiEvent)
    requires Consistent(s)
    ensures Consistent(Step(s, e).state)
    ensures Step(s, e).sent.Some? ==> WellFormedRequest(Step(s, e).sent.value)
    ensures s.dbProvider == NoProvider ==> Step(s, e).sent.None?
  {
    match e
    case PickType(t) =>
    case PickProvider(i) =>
      var r := OnSelect(s.dbType, i);
      if r.Some? && i > 0 {
        assert r.value == ProvidersOf(s.dbType)[i - 1];
      }
    case EditField(i, v) =>
    case ClickConnect(reply) =>
  }

  /** However the user drives the page from the start, the credentials only ever
      hold fields of the current provider, and every request sent to the server
      names a provider of its type with only that provider's fields. */
  lemma {:induction false} RunKeepsConsistent(s: WizardState, es: seq<UiEvent>)
    requires Consistent(s)
    ensures Consistent(Run(s, es).0)
    ensures forall r :: r in Run(s, es).1 ==> WellFormedRequest(r)
    decreases |es|
  {
    if es != [] {
      StepKeepsConsistent(s, es[0]);
      RunKeepsConsistent(Step(s, es[0]).state, es[1..]);
    }
  }

  /** From the initial state, every reachable state and request is consistent. */
  lemma FromInitialStaysConsistent(es: seq<UiEvent>)
    ensures Consistent(Run(Initial, es).0)
    ensures forall r :: r in Run(Initial, es).1 ==> WellFormedRequest(r)
  {
    RunKeepsConsistent(Initial, es);
  }
}
