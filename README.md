# Database Copilot in Dafny

Database Copilot connects a user to a database and lets them ask about it in
natural language. A Next.js frontend handles the rest of the user's side:
- signing up;
- the session kept in local storage and a route guard;
- a connection wizard (database type, then provider, then credential fields);
- a chat view.

The FastAPI backend keeps a table of live database connections behind its
`/api/database` routes. Its chat handler (backend/app/routers/chat.py) runs a
language model that may call three database tools: list the tables, fetch a
table's schema and run a SQL query. The application in backend/main.py:17
mounts only the database router, so as written the chat route is not served;
the model follows the handler as written.

This project models those pieces and proves what they promise.
- **Values and functions.** The pure parts (registry tables, selectors, form
  rendering, the email check, request shaping, result shaping) are datatypes and
  functions.
- **Classes.** The parts that update state in place are classes whose methods are
  proved against those functions:
  - the connection hook;
  - the chat view;
  - the signup page;
  - the auth provider;
  - the connection service.
- **Imperative loops.** The chat handler's agent loop is a method with loops,
  proved equal to a recursive reference function.
- **Remote calls as parameters.** Every remote call (drivers, Supabase, the
  language model, `signup`/`signout`, the connect request) is a parameter
  describing how it ends. So are clock readings and generated ids.

Module layout, one file each:
- **Shared:** `Common` (Option and remote outcomes), `JsText` (the JavaScript
  string operations the frontend uses).
- **Connection wizard:** `Registry`, `ProviderSelector`, `CredentialFields`,
  `Wizard`, `WizardFlow`.
- **Other frontend pages:** `ChatPage`, `Signup`, `AuthContext`, `AuthGuard`.
- **Backend:** `BackendModels`, `ConnectionService`, `DatabaseRouter`,
  `DatabaseTools`, `ChatRouter`.
- **Frontend against backend:** `CrossChecks`.

Behaviour of the code worth knowing, which the model follows:
- The wizard has no database-name field and posts only type, provider and
  credentials (frontend/db-copilot/app/hooks/useDatabaseConnection.ts:27-34).
- `ProviderOf` evaluates the fallback `conn_data['db_name']` eagerly
  (backend/app/tools/database_tools.py:26, :67). So a row without `db_name`
  raises a KeyError even when `db_provider_name` is present.
- The tools read the stored row with `select("*")`, so a NULL column is present
  with the value `None`. A NULL `db_provider_name` is therefore not replaced by
  `db_name`: the provider is `None` and the row counts as unsupported. A NULL
  `credentials` on a supabase row fails inside the SQLAlchemy `try` and comes
  back as an error dictionary.
- Every failure inside the chat handler's authentication block surfaces as 401
  `Authentication failed`. That includes the 500 for a missing client and the 401
  `Invalid access token`. Both `HTTPException`s are raised inside the `try` and
  caught by its `except Exception` (backend/app/routers/chat.py:39-50).
- The framework validates a connect body against the `Literal` types of the
  request model before the handler runs. A provider outside the four gets 422,
  so the service's `Unsupported database provider` branch is never reached
  through the route.

## Model

| member | source | states |
|---|---|---|
| JsText.TrimStart | frontend/db-copilot/app/pages/ChatPage.tsx:39 | the result is a suffix of the input, everything dropped is whitespace, and it does not start with whitespace |
| JsText.TrimEnd | frontend/db-copilot/app/pages/ChatPage.tsx:39 | the result is a prefix of the input, everything dropped is whitespace, and it does not end with whitespace |
| JsText.TrimEmptyIffBlank | frontend/db-copilot/app/pages/ChatPage.tsx:39 | `trim()` gives the empty string exactly when every character is ECMAScript whitespace |
| JsText.ToUpper | frontend/db-copilot/app/components/DatabaseProviderSelector.tsx:24 | a lower-case ASCII letter becomes its capital; every other character is unchanged |
| JsText.CapitalizeFirst | frontend/db-copilot/app/components/DatabaseProviderSelector.tsx:24 | same length, the first character upper-cased, the rest unchanged |
| JsText.ReplaceChar | frontend/db-copilot/app/components/CredentialFields.tsx:25 | same length; every occurrence of the character is replaced and every other character kept |
| JsText.Contains | frontend/db-copilot/app/components/CredentialFields.tsx:28 | true exactly when the pattern occurs at some index |
| JsText.AbsentCharBlocksMatch | frontend/db-copilot/app/components/CredentialFields.tsx:28 | a string lacking a character of the pattern does not contain the pattern |
| Registry.ParseProvider | frontend/db-copilot/app/types/database.ts:2 | a parsed provider prints back as the parsed string |
| Registry.ProviderNameRoundTrip | frontend/db-copilot/app/types/database.ts:2 | parsing a provider's name gives the provider back; the empty name is the unset provider |
| Registry.TypeNameInjective | frontend/db-copilot/app/types/database.ts:1 | distinct types have distinct names; the empty name is the unset type |
| Registry.ProviderUnderExactlyOneType | frontend/db-copilot/app/constants/database.ts:1-4 | every set provider is listed under exactly one type, and the unset one under none |
| Registry.CredentialTableCoversProviders | frontend/db-copilot/app/constants/database.ts:6-11 | the field table has an entry for exactly the four providers; each list is non-empty and has no duplicates |
| Registry.FieldListsByProvider | frontend/db-copilot/app/constants/database.ts:7-10 | mysql and postgresql list host, port, username, password, database in that order; supabase and mongodb list only `connection_string` |
| ProviderSelector.Options | frontend/db-copilot/app/components/DatabaseProviderSelector.tsx:11-26 | nothing renders for the unset type; otherwise the empty placeholder comes first and the type's providers follow in registry order with their labels |
| ProviderSelector.OnSelect | frontend/db-copilot/app/components/DatabaseProviderSelector.tsx:18 | selecting option i passes the raw value of that option: the unset provider for the placeholder, the (i-1)-th provider otherwise |
| ProviderSelector.LabelCapitalisesName | frontend/db-copilot/app/components/DatabaseProviderSelector.tsx:24 | a label is the provider's value with the first letter made a capital and the rest unchanged |
| ProviderSelector.SqlLabels | frontend/db-copilot/app/components/DatabaseProviderSelector.tsx:24 | the labels read Mysql, Postgresql, Supabase and Mongodb |
| CredentialFields.CapitalizeWords | frontend/db-copilot/app/components/CredentialFields.tsx:25 | a word character that follows a non-word character (or starts the string) is upper-cased; all other characters are kept |
| CredentialFields.FieldLabel | frontend/db-copilot/app/components/CredentialFields.tsx:25 | the label has the name's length, and every underscore shows as a space |
| CredentialFields.LabelOfSnakeCase | frontend/db-copilot/app/components/CredentialFields.tsx:25 | for a snake_case name, underscores become spaces, a letter starting a word becomes a capital, and every other letter is kept |
| CredentialFields.ShownValue | frontend/db-copilot/app/components/CredentialFields.tsx:29 | a field missing from the credentials displays as the empty string; a present one displays its value |
| CredentialFields.Placeholder | frontend/db-copilot/app/components/CredentialFields.tsx:32 | `Enter ` followed by the name with each underscore turned into a space |
| CredentialFields.Inputs | frontend/db-copilot/app/components/CredentialFields.tsx:11-35 | nothing renders without a provider or a registry entry; otherwise one input per registry field, in registry order |
| CredentialFields.OnEdit | frontend/db-copilot/app/components/CredentialFields.tsx:30 | editing input i reports that field's exact name, which is a registry field, together with the new value |
| CredentialFields.RenderedNamesAreRegistry | frontend/db-copilot/app/components/CredentialFields.tsx:22 | the names of the rendered inputs are exactly the registry list of the provider, whatever was typed |
| CredentialFields.PasswordIsMasked | frontend/db-copilot/app/components/CredentialFields.tsx:28 | the `password` field is masked |
| CredentialFields.UnmaskedWithoutKOrW | frontend/db-copilot/app/components/CredentialFields.tsx:28 | a name without `k` or `w` mentions neither `password` nor `key`, so it is not masked |
| CredentialFields.OtherFieldsAreNotMasked | frontend/db-copilot/app/components/CredentialFields.tsx:28 | every registry field other than `password` is shown in clear |
| Wizard.ChangeType | frontend/db-copilot/app/hooks/useDatabaseConnection.ts:12-16 | the new type is stored; provider and credentials start over |
| Wizard.ChangeProvider | frontend/db-copilot/app/hooks/useDatabaseConnection.ts:18-21 | the provider is stored, credentials are emptied and the type is kept |
| Wizard.ChangeCredential | frontend/db-copilot/app/hooks/useDatabaseConnection.ts:23-25 | exactly that key is set to the value; every other key, the type and the provider are kept |
| Wizard.CredentialWriteIdempotent | frontend/db-copilot/app/hooks/useDatabaseConnection.ts:23-25 | writing the same value twice is the same as writing it once |
| Wizard.LaterCredentialWriteWins | frontend/db-copilot/app/hooks/useDatabaseConnection.ts:23-25 | a later write to a key replaces an earlier one |
| Wizard.CredentialWritesCommute | frontend/db-copilot/app/hooks/useDatabaseConnection.ts:23-25 | writes to two different keys can be done in either order |
| Wizard.ChatRoute | frontend/db-copilot/app/hooks/useDatabaseConnection.ts:30 | the route is `/chat?connectionId=` followed by the returned id, or by `undefined` when the reply has none |
| Wizard.ConnectOutcome | frontend/db-copilot/app/hooks/useDatabaseConnection.ts:27-34 | a successful connect navigates to the chat route of the returned id; a failed one alerts `Connection failed: ` plus the message |
| Wizard.ConnectionHook.constructor | frontend/db-copilot/app/hooks/useDatabaseConnection.ts:8-10 | initial state: unset type, unset provider, no credentials |
| Wizard.ConnectionHook.HandleDbTypeChange | frontend/db-copilot/app/hooks/useDatabaseConnection.ts:12-16 | the hook's new state is `ChangeType` of the old |
| Wizard.ConnectionHook.HandleDbProviderChange | frontend/db-copilot/app/hooks/useDatabaseConnection.ts:18-21 | the hook's new state is `ChangeProvider` of the old |
| Wizard.ConnectionHook.HandleCredentialChange | frontend/db-copilot/app/hooks/useDatabaseConnection.ts:23-25 | the hook's new state is `ChangeCredential` of the old |
| Wizard.ConnectionHook.HandleConnect | frontend/db-copilot/app/hooks/useDatabaseConnection.ts:27-34 | sends the current type, provider and credentials, changes no state (so a failure leaves the form as it was), and acts on the reply as `ConnectOutcome` says |
| WizardFlow.StepKeepsConsistent | frontend/db-copilot/app/components/ConnectButton.tsx:9 | every UI action keeps the chosen provider under the chosen type and the keys within its fields; a sent request is well formed; nothing is sent without a provider |
| WizardFlow.RunKeepsConsistent | frontend/db-copilot/app/hooks/useDatabaseConnection.ts:12-34 | any sequence of UI actions keeps the state consistent, and every request it sends is well formed |
| WizardFlow.FromInitialStaysConsistent | frontend/db-copilot/app/hooks/useDatabaseConnection.ts:8-10 | from the initial state, every reachable state is consistent and every request sent is well formed |
| ChatPage.Send | frontend/db-copilot/app/pages/ChatPage.tsx:38-50 | with blank input or a pending reply nothing changes; otherwise one user message with the untrimmed input is appended, the input cleared and pending set |
| ChatPage.Reply | frontend/db-copilot/app/pages/ChatPage.tsx:53-62 | one non-user message with the canned text is appended and pending is cleared |
| ChatPage.SendIsNoOpIffBlankOrPending | frontend/db-copilot/app/pages/ChatPage.tsx:39 | send leaves the state unchanged exactly when the input is blank or a reply is pending, which is the button's disabled condition at line 176 |
| ChatPage.SendKeepsAlternating | frontend/db-copilot/app/pages/ChatPage.tsx:41-50 | a send keeps the log alternating |
| ChatPage.AppendKeepsAlternating | frontend/db-copilot/app/pages/ChatPage.tsx:48 | appending a bubble whose author fits its index keeps the log alternating |
| ChatPage.ReplyKeepsAlternating | frontend/db-copilot/app/pages/ChatPage.tsx:60-61 | a reply to a pending send keeps the log alternating |
| ChatPage.ChatStepKeepsAlternating | frontend/db-copilot/app/pages/ChatPage.tsx:38-62 | one event keeps the log alternating and only appends to it |
| ChatPage.ChatRunKeepsAlternating | frontend/db-copilot/app/pages/ChatPage.tsx:48 | over any run, messages are only appended, never removed or reordered, and the log alternates |
| ChatPage.InitialChatAlternating | frontend/db-copilot/app/pages/ChatPage.tsx:18-27 | from the initial welcome-only log, every reachable log starts with the welcome bubble and alternates user message and reply |
| ChatPage.ChatView.constructor | frontend/db-copilot/app/pages/ChatPage.tsx:18-27 | the initial log is the one welcome message; the input is empty and nothing is pending |
| ChatPage.ChatView.HandleInput | frontend/db-copilot/app/pages/ChatPage.tsx:166 | only the input box changes |
| ChatPage.ChatView.HandleSend | frontend/db-copilot/app/pages/ChatPage.tsx:38-50 | the view's new state is `Send` of the old |
| ChatPage.ChatView.OnTimer | frontend/db-copilot/app/pages/ChatPage.tsx:53-62 | the view's new state is `Reply` of the old |
| Signup.IndexOf | frontend/db-copilot/app/signup/page.tsx:20 | the first index holding the character |
| Signup.EmailCheckMatchesPattern | frontend/db-copilot/app/signup/page.tsx:20 | the scan accepts exactly the strings matching `^[^\s@]+@[^\s@]+\.[^\s@]+$`: no whitespace, one `@` after a non-empty part, then a dot that is neither first nor last |
| Signup.SubmitEffects | frontend/db-copilot/app/signup/page.tsx:16-44 | every submission has at least one visible effect |
| Signup.SignupCalledIffChecksPass | frontend/db-copilot/app/signup/page.tsx:22-35 | `signup` is called exactly when both checks pass, then first and once, with name, email and password (not the confirmation) |
| Signup.EmailCheckedFirst | frontend/db-copilot/app/signup/page.tsx:22-30 | a bad email produces only its own alert, whatever the passwords are |
| Signup.NavigatesIffCreated | frontend/db-copilot/app/signup/page.tsx:36-37 | the page goes to `/login` exactly when both checks pass and the call succeeds |
| Signup.SignupPage.HandleSubmit | frontend/db-copilot/app/signup/page.tsx:16-44 | the effects are `SubmitEffects`; `loading` is false after every submitted attempt and untouched by a rejected one |
| AuthContext.Restore | frontend/db-copilot/app/context/AuthContext.tsx:27-39 | a parsable stored user becomes the current user; an unparsable one is removed from storage and the user stays as it was; without one nothing changes; `loading` ends false |
| AuthContext.Login | frontend/db-copilot/app/context/AuthContext.tsx:41-45 | the three keys hold the tokens and the serialised user, and the user is set |
| AuthContext.SignoutCall | frontend/db-copilot/app/context/AuthContext.tsx:51-55 | signout is called exactly when a non-empty access token is stored, with that token |
| AuthContext.Logout | frontend/db-copilot/app/context/AuthContext.tsx:58-63 | the three keys are gone, the user is null, and no access token remains |
| AuthContext.OtherKeysUntouched | frontend/db-copilot/app/context/AuthContext.tsx:42-44 | mount, login and logout write or remove no key other than the three |
| AuthContext.LoginThenRestore | frontend/db-copilot/app/context/AuthContext.tsx:29-32 | reloading after login restores the same user when parsing undoes serialising |
| AuthContext.LogoutThenRestore | frontend/db-copilot/app/context/AuthContext.tsx:59-62 | after logout a reload finds no user and no token to send |
| AuthContext.UseAuth | frontend/db-copilot/app/context/AuthContext.tsx:74-79 | outside a provider it fails with `useAuth must be used within an AuthProvider`; inside, it returns the context |
| AuthContext.AuthProvider.constructor | frontend/db-copilot/app/context/AuthContext.tsx:23-24 | no user and `loading` true over whatever was stored |
| AuthContext.AuthProvider.Mount | frontend/db-copilot/app/context/AuthContext.tsx:27-39 | the provider's new state is `Restore` of the old |
| AuthContext.AuthProvider.DoLogin | frontend/db-copilot/app/context/AuthContext.tsx:41-47 | the new state is `Login` of the old, then navigation to `/home` |
| AuthContext.AuthProvider.DoLogout | frontend/db-copilot/app/context/AuthContext.tsx:49-65 | the signout call is `SignoutCall` of the old storage; the new state is `Logout` of the old whatever the call's outcome; navigation to `/login` |
| AuthGuard.GuardRender | frontend/db-copilot/app/components/AuthGuard.tsx:20-27 | the children render unchanged exactly when a window exists and a non-empty access token is stored; otherwise nothing renders |
| AuthGuard.GuardRedirect | frontend/db-copilot/app/components/AuthGuard.tsx:12-18 | the effect redirects to `/` exactly when no access token is stored |
| AuthGuard.OnlyAccessTokenMatters | frontend/db-copilot/app/components/AuthGuard.tsx:13 | storages that agree on `access_token` render and redirect alike, whatever user or refresh token they hold |
| AuthGuard.LogoutLocksGuard | frontend/db-copilot/app/components/AuthGuard.tsx:21-25 | after logout a guarded page renders nothing and redirects |
| AuthGuard.LoginUnlocksGuard | frontend/db-copilot/app/components/AuthGuard.tsx:27 | after a login with a non-empty token a guarded page in the browser renders its children |
| BackendModels.Validate | backend/app/models/database.py:4-10 | a request is accepted exactly when `db_type` is sql or nosql and `db_provider` one of the four providers; the fields are kept as sent |
| BackendModels.Failure | backend/app/models/database.py:12-15 | a failed response carries its message and no id |
| BackendModels.NoTypeProviderTie | backend/app/models/database.py:7-10 | any provider is accepted with either type, mongodb with sql included |
| ConnectionService.RequiredFields | backend/app/services/database_service.py:62-143 | mysql and postgresql need host, port, username, password, database; supabase needs `supabase_url` and `supabase_anon_key`; mongodb needs `connection_string` |
| ConnectionService.ConnectProvider | backend/app/services/database_service.py:62-143 | a missing driver is reported first, then a missing required key, then the outcome of the driver given the required values, with the provider's `connection failed: ` prefix on failure; it connects exactly when all three pass |
| ConnectionService.RequiredValues | backend/app/services/database_service.py:71-77 | the driver is handed the values of the required keys, in the helper's order |
| ConnectionService.ConnectChangesTableOnlyOnSuccess | backend/app/services/database_service.py:45-57 | success returns the id and adds an entry under it recording provider and type; failure returns no id and leaves the table unchanged |
| ConnectionService.ConnectAddsOneKey | backend/app/services/database_service.py:46-50 | with a fresh id, success grows the table by exactly that key |
| ConnectionService.UnsupportedProvider | backend/app/services/database_service.py:42-43 | a provider outside the four fails with `Unsupported database provider` and the table is unchanged |
| ConnectionService.DriverCheckedBeforeCredentials | backend/app/services/database_service.py:63-64 | a missing driver is reported whatever the credentials are |
| ConnectionService.ExtraKeysIgnored | backend/app/services/database_service.py:66-77 | two credential maps holding the same required keys with the same values connect alike; keys outside the required ones change nothing |
| ConnectionService.DatabaseService.constructor | backend/app/services/database_service.py:26-28 | the table starts empty |
| ConnectionService.DatabaseService.ConnectDatabase | backend/app/services/database_service.py:30-57 | the response and the new table are those of `Connect` on the old table |
| DatabaseRouter.RouteConnect | backend/app/routers/database.py:7-15 | a failed result becomes a 400 with its message as detail; a successful one is returned unchanged |
| DatabaseRouter.Status | backend/app/routers/database.py:17-23 | an unknown id gives 404 `Connection not found`; a known one reports active with the same id |
| DatabaseRouter.Disconnect | backend/app/routers/database.py:25-42 | an unknown id gives 404 and changes nothing; a known id is removed and nothing else; close is attempted exactly for mysql, postgresql and mongodb |
| DatabaseRouter.DisconnectKeepsOthers | backend/app/routers/database.py:41 | every other entry stays as it was |
| DatabaseRouter.SecondDisconnectIsNotFound | backend/app/routers/database.py:28-29 | disconnecting the same id again gives 404, and so does its status |
| DatabaseRouter.ConnectedIdIsActive | backend/app/routers/database.py:20-23 | after a successful connect the status route reports the new id as active |
| DatabaseRouter.ConnectEndpoint | backend/app/routers/database.py:7-15 | a body outside the request model gets 422 and changes nothing; success exactly when the body validates and the service connects, with the new id in the table; every error leaves the table unchanged |
| DatabaseRouter.UnsupportedProviderUnreachable | backend/app/services/database_service.py:42-43 | through the route the unsupported-provider 400 never happens; a provider outside the four gets 422 |
| DatabaseRouter.ConnectRoute | backend/app/routers/database.py:7-15 | reply and new table are those of `ConnectEndpoint` on the old table |
| DatabaseRouter.CheckConnectionStatus | backend/app/routers/database.py:17-23 | answers by membership in the table, as `Status`, and changes nothing |
| DatabaseRouter.DisconnectDatabase | backend/app/routers/database.py:25-42 | reply, closed handle and new table are those of `Disconnect` on the old table |
| DatabaseTools.LookupRow | backend/app/tools/database_tools.py:8-18 | no client raises `Failed to initialize Supabase client`; a query that raises passes its text on; no matching row raises `Connection <id> not found`; otherwise the first matching row |
| DatabaseTools.ProviderOf | backend/app/tools/database_tools.py:26 | the `db_provider_name` column when the row has one, NULL included, else `db_name` (which may be NULL); a row without `db_name` raises a KeyError in either case |
| DatabaseTools.ZipPrefix | backend/app/tools/database_tools.py:86 | the keys are the first n column names; a name's value is the value at its last position among them |
| DatabaseTools.ZipStep | backend/app/tools/database_tools.py:86 | adding the next pair keeps the keys equal to the columns seen and lets the last occurrence of a name win |
| DatabaseTools.Zip | backend/app/tools/database_tools.py:86 | pairs stop at the shorter of columns and row; each key maps to the value at its last occurrence |
| DatabaseTools.RowsToDicts | backend/app/tools/database_tools.py:85-86 | one dictionary per row, in row order |
| DatabaseTools.ExecuteSql | backend/app/tools/database_tools.py:61-91 | lookup failures, a missing `credentials` column and a missing `db_name` raise; a provider other than supabase, NULL included, gives `Unsupported provider`; on a supabase row a NULL `credentials` gives the SQLAlchemy error dictionary with the `'NoneType' object is not subscriptable` text, a missing `connection_string` gives it for that key, the engine's rows come back as one dictionary per row, and an engine failure gives the error dictionary with its text |
| DatabaseTools.TableNames | backend/app/tools/database_tools.py:36 | only rows having `table_name` contribute, in order; when every row has it, the result is their values one for one |
| DatabaseTools.TableNamesAppend | backend/app/tools/database_tools.py:36 | extraction keeps row order across concatenation |
| DatabaseTools.ListTables | backend/app/tools/database_tools.py:20-48 | when `execute_sql_query` of the tables query returns rows, the result is their table names; in every other case (raise, error dictionary, other provider) it is `[]`; nothing is raised |
| DatabaseTools.NoTablesOffSupabase | backend/app/tools/database_tools.py:44-45 | a provider other than supabase, a NULL one included, gives no tables, and its query gives `Unsupported provider` |
| DatabaseTools.SchemaQuery | backend/app/tools/database_tools.py:54-58 | the table name sits verbatim and unescaped between the quotes, at a fixed offset |
| DatabaseTools.SchemaQueryInjective | backend/app/tools/database_tools.py:54-58 | different table names give different queries |
| DatabaseTools.GetTableSchema | backend/app/tools/database_tools.py:50-59 | every outcome is `execute_sql_query`'s for the schema query of that table: it raises exactly when the lookup, the `credentials` read or the provider read raises, with that error's text; off supabase it gives `Unsupported provider`; on supabase a NULL `credentials` or a missing `connection_string` gives the SQLAlchemy error dictionary, and the engine's result comes back as rows or as that dictionary with its text |
| ChatRouter.UpToSpace | backend/app/routers/chat.py:37 | a prefix without spaces, ending at the first space or the end |
| ChatRouter.BearerToken | backend/app/routers/chat.py:34-37 | a token exists exactly when the header starts with `Bearer `; it is the text after that up to the next space |
| ChatRouter.BearerTokenRoundTrip | backend/app/routers/chat.py:37 | a space-free token is read back whole; `Bearer ` alone gives the empty token |
| ChatRouter.UpToSpaceOfSpaceFree | backend/app/routers/chat.py:37 | a space-free string is kept whole |
| ChatRouter.Authenticate | backend/app/routers/chat.py:34-50 | a bad header gives 401 `Missing or invalid authorization header`; success exactly when a client exists and the token names a user; every other failure is 401 `Authentication failed` |
| ChatRouter.Dispatch | backend/app/routers/chat.py:101-109 | tools are chosen by name: `list_tables` gives the table list, `get_table_schema` and `execute_sql_query` give the tool's result or raise its error, an unknown name gives `Unknown tool: <name>`, and a missing argument raises |
| ChatRouter.RunCalls | backend/app/routers/chat.py:95-120 | fails exactly when some call raises, with the text of the first call that raises; otherwise each call adds, in call order, its entry (name, arguments, the tool's result) and the tool message carrying the rendered result under the call's id |
| ChatRouter.FailureCons | backend/app/routers/chat.py:95-107 | when the first call does not raise, some call raises exactly when one of the others does |
| ChatRouter.FailsWithCons | backend/app/routers/chat.py:95-107 | when the first call does not raise, the first raising call of the others is the first overall |
| ChatRouter.ToolMessagesCons | backend/app/routers/chat.py:120 | one tool message followed by the messages for the remaining calls answers every call with its rendered result |
| ChatRouter.RecordsCons | backend/app/routers/chat.py:113-117 | one entry followed by the entries for the remaining calls are the entries of every call |
| ChatRouter.Agent | backend/app/routers/chat.py:76-120 | the rounds run are at most the replies; per round the conversation grows by 1 + k and the records by k; records only grow |
| ChatRouter.AgentProper | backend/app/routers/chat.py:76-125 | every reply the loop goes round on asked for tools none of which raised; the next reply ends it: without tool calls it is the answer, a raising model call or the first raising tool call is the failure, and past the last reply the script is exhausted; the new records are the entries of those rounds' calls, in order |
| ChatRouter.EndsAtOnce | backend/app/routers/chat.py:80-88 | a run that ends on its first reply, adding nothing, satisfies the loop's properties |
| ChatRouter.AgentStep | backend/app/routers/chat.py:93-120 | a run after one tool round whose calls all succeeded satisfies the loop's properties from before that round |
| ChatRouter.RoundsCons | backend/app/routers/chat.py:93-120 | a tool round followed by n tool rounds is n + 1 tool rounds |
| ChatRouter.EndsAtCons | backend/app/routers/chat.py:76-88 | the loop ends the same way seen from one reply earlier |
| ChatRouter.AgentRecordsFollowCalls | backend/app/routers/chat.py:93-120 | one round's entries followed by the later rounds' entries are the entries of the calls in order |
| ChatRouter.RoundsOfRun | backend/app/routers/chat.py:76-88 | the loop goes round on exactly the replies before the first one that does not send it round again |
| ChatRouter.ConversationRecords | backend/app/routers/chat.py:71-117 | the records of a conversation are the entries of the calls of the rounds it went round on |
| ChatRouter.RunRound | backend/app/routers/chat.py:95-120 | the `for` loop over one reply's tool calls computes `RunCalls` |
| ChatRouter.RunAgent | backend/app/routers/chat.py:68-125 | the loop ends as `Agent` says; the conversation is 1 + rounds + records long; the records are the entries of the calls of the rounds run, in order |
| ChatRouter.QueryOutcome | backend/app/routers/chat.py:31-125 | a failed authentication gives its 401; a raising LLM constructor gives 500 `Failed to initialize LLM: `; no key gives 500 `Agent execution failed: ` with the unbound-variable text; with a built model an answer gives the response with the records, and a failure in the loop gives 500 `Agent execution failed: ` with its text |
| ChatRouter.ModelProviderIgnored | backend/app/routers/chat.py:25 | the request's model provider makes no difference |
| ChatRouter.AnswerCarriesAllRecords | backend/app/routers/chat.py:82-88 | a successful reply carries the content of the first model reply without tool calls, every earlier reply having asked for tools that did not raise, and the entries of every earlier call in order |
| ChatRouter.OutcomeAfterToolRounds | backend/app/routers/chat.py:76-125 | after authentication with a built model, the reply after the tool rounds decides: without tool calls it is the answer with the earlier entries; a raising model call or its first raising tool call gives 500 `Agent execution failed: ` with that text |
| ChatRouter.HandleQuery | backend/app/routers/chat.py:31-125 | the handler's outcome is `QueryOutcome` |
| CrossChecks.ToBackend | frontend/db-copilot/app/types/database.ts:8-12 | the wire form keeps the credentials and names type and provider by their strings |
| CrossChecks.WizardRequestsValidate | backend/app/models/database.py:7-10 | every request the wizard can send passes the backend's validation |
| CrossChecks.FieldListsAgainstBackend | frontend/db-copilot/app/constants/database.ts:7-10 | mysql, postgresql and mongodb ask for exactly the keys the backend requires; the supabase fields and the backend's supabase keys are disjoint |
| CrossChecks.SupabaseWizardRequestRefused | backend/app/services/database_service.py:110-112 | a supabase request from the wizard is refused for missing credentials whenever the driver is installed |
| CrossChecks.CompleteFormPassesKeyCheck | backend/app/services/database_service.py:66-68 | a completely filled mysql, postgresql or mongodb form passes the key check, and the driver, given the form's values for the required keys, decides |

## Left out

- Markup, styling, scrolling and the presentation-only pages are not modelled: the navigation bar, header, home page, type selector, name field and sidebar.
- The home page's `dbName` and `handleDbNameChange` are not modelled. The hook does not return them, so the page refers to names that do not exist.
- `connectToDatabase`, which the hook imports, is not exported by `services/api.ts`. The connect request is modelled as a parameter saying how it ends.
- Fetch plumbing, the Supabase auth routes, the client factory and application wiring are not modelled. Each remote call's outcome is a parameter.
- The drivers, Supabase, SQLAlchemy and the language model are left out. Each becomes a parameter:
  - a driver's connect and probe, as a function of the required credential values in order (how `int()` parses a port is inside it);
  - the engine's result per connection string and query;
  - a finite script of model replies.
- Clock readings, timestamps, `Date.now()` ids and `uuid4` ids are parameters. Uniqueness of a generated id is assumed only where a lemma says so.
- The 1500 ms timer is a separate event, which fires only while a reply is pending.
- React re-render timing and awaits are not modelled; each handler is one atomic step.
- `JSON.parse` and `JSON.stringify` of the stored user are parameters. A stored value that parses to something other than a user record is not distinguished from a user.
- Python's `str()` of a tool result is a parameter (`render`).
- Logging (`print`, `console.error`, `traceback`) is not modelled.
- The chat input's `length/1000` counter is display only and bounds nothing, so it is not modelled.
- Shift+Enter handling in the chat input is not modelled: Enter without Shift calls the same send handler.
- The order of keys in Python dictionaries is not modelled; dictionaries are maps.
- The database tools look the connection up twice, once in `list_tables` and again inside `execute_sql_query`. The model gives both lookups the same outcome.
- The text of Python's own exceptions is passed in as a parameter or written as a constant:
  - a KeyError's text is the quoted key;
  - the unbound `llm` message follows Python 3.11 and later.
- `connect_database`'s outer `except` (backend/app/services/database_service.py:59-60) is not modelled. Every step that can raise is already inside a helper's own handler.
- `get_configured_tools` only wraps the three tools for the model. Binding them is part of the language model, which is left out.
- JsText.ToUpper: only ASCII letters are upper-cased. Every label and field name in the registry is ASCII.
- ChatRouter.RunAgent: the loop is bounded by the scripted model replies. The source loop has no bound, and running out of script is reported as its own outcome.
- The chat router is not mounted by backend/main.py:17, so the application as written does not serve `/api/chat`. `ChatRouter` models the handler in backend/app/routers/chat.py as if it were mounted.
- The body of FastAPI's 422 reply (a JSON list of validation errors) is the fixed detail `InvalidBody`.
- A close that raises during a disconnect is swallowed by a bare `except` (backend/app/routers/database.py:33-39). The model has no outcome for the close, so `Disconnect` does not depend on it.
- The text of each message sent to the model is not tracked beyond the tool messages of one round; `Agent` states the conversation's length only.
- The values inside the `credentials` JSON object are taken to be strings. A `connection_string` that is NULL or not a string is not represented.
