/** The `/api/chat` handler: the bearer-token check, the LLM set-up, and the
    agent loop that alternates model calls with tool calls until the model
    answers without asking for a tool. */
module ChatRouter {
  import opened Common
  import opened JsText
  import opened BackendModels
  import opened DatabaseTools

  /** The request body; `modelProvider` has a default and is never read. */
  datatype ChatRequest = ChatRequest(message: string, connectionId: string, modelProvider: string)

  /** A tool call the model asks for. */
  datatype ToolCall = ToolCall(name: string, args: map<string, string>, id: string)

  /** One model invocation: a response (content and tool calls), or the text of
      what the invocation raised. */
  datatype LlmReply = Responded(content: string, toolCalls: seq<ToolCall>) | Raised(message: string)

  /** What a tool hands back. */
  datatype ToolResult = TableList(names: seq<Value>) | Query(result: QueryResult) | Text(text: string)

  /** One entry of the returned `tool_calls` list. */
  datatype ToolRecord = ToolRecord(name: string, args: map<string, string>, result: ToolResult)

  /** The conversation sent to the model. */
  datatype ChatMessage =
    | Human(text: string)
    | Assistant(content: string, toolCalls: seq<ToolCall>)
    | ToolMessage(content: string, toolCallId: string)

  /** The response body. */
  datatype ChatResponse = ChatResponse(response: string, toolCalls: seq<ToolRecord>)

  const BearerPrefix := "Bearer "

  /** The text before the first space, or all of it. */
  function UpToSpace(s: string): (r: string)
    ensures |r| <= |s| && r == s[..|r|]
    ensures ' ' !in r
    ensures |r| < |s| ==> s[|r|] == ' '
  {
    if s == [] || s[0] == ' ' then [] else [s[0]] + UpToSpace(s[1..])
  }

  /** The token the handler reads: the header must be present and start with
      `Bearer `; the token is the second space-separated piece. */
  function BearerToken(header: Option<string>): (r: Option<string>)
    ensures r.Some? <==> header.Some? && StartsWith(header.value, BearerPrefix)
    ensures r.Some? ==> r.value == UpToSpace(header.value[|BearerPrefix|..])
  {
    if header.Some? && StartsWith(header.value, BearerPrefix) then
      Some(UpToSpace(header.value[|BearerPrefix|..]))
    else None
  }

  /** A token without spaces is read back whole; `Bearer ` alone gives the empty token. */
  lemma {:induction false} BearerTokenRoundTrip(token: string)
    requires ' ' !in token
    ensures BearerToken(Some(BearerPrefix + token)) == Some(token)
  {
    var h := BearerPrefix + token;
    assert h[..|BearerPrefix|] == BearerPrefix;
    assert h[|BearerPrefix|..] == token;
    UpToSpaceOfSpaceFree(token);
  }

  lemma {:induction false} UpToSpaceOfSpaceFree(s: string)
    requires ' ' !in s
    ensures UpToSpace(s) == s
  {
    if s != [] {
      assert s[0] != ' ';
      assert ' ' !in s[1..];
      UpToSpaceOfSpaceFree(s[1..]);
      assert s == [s[0]] + s[1..];
    }
  }

  /** The authentication back end: whether a client could be built, and for a
      token whether the server knows a user for it (or what the lookup raised). */
  datatype AuthEnv = AuthEnv(clientReady: bool, getUser: string -> Remote<bool>)

  /** The authentication step. A bad header is the one distinct 401; every other
      failure, the missing client and the unknown user included, is caught by the
      blanket handler and reported as 401 `Authentication failed`. */
  function Authenticate(header: Option<string>, auth: AuthEnv): (r: HttpResult<string>)
    ensures BearerToken(header).None? ==> r == HttpError(401, "Missing or invalid authorization header")
    ensures r.Success? <==>
      BearerToken(header).Some? && auth.clientReady && auth.getUser(BearerToken(header).value) == Ok(true)
    ensures r.Success? ==> r.body == BearerToken(header).value
    ensures BearerToken(header).Some? && r.HttpError? ==> r == HttpError(401, "Authentication failed")
  {
    match BearerToken(header)
    case None => HttpError(401, "Missing or invalid authorization header")
    case Some(token) =>
      if auth.clientReady && auth.getUser(token) == Ok(true) then Success(token)
      else HttpError(401, "Authentication failed")
  }

  /** The LLM set-up: the API key from the environment and whether building the
      client raises. */
  datatype LlmEnv = LlmEnv(groqKey: Option<string>, groqInit: Remote<()>)

  /** The model is built only when the key is set and non-empty. */
  predicate LlmBound(llm: LlmEnv)
  {
    llm.groqKey.Some? && llm.groqKey.value != "" && llm.groqInit.Ok?
  }

  /** What Python reports when the loop reads the never-assigned `llm`. */
  const UnboundLlmMessage := "cannot access local variable 'llm' where it is not associated with a value"

  /** A tool call by name; a missing argument raises the KeyError's text. */
  function Dispatch(tools: ToolEnv, id: string, call: ToolCall): (r: Remote<ToolResult>)
    ensures call.name == "list_tables" ==> r == Ok(TableList(ListTables(tools, id)))
    ensures call.name !in ["list_tables", "get_table_schema", "execute_sql_query"] ==>
      r == Ok(Text("Unknown tool: " + call.name))
    ensures call.name == "get_table_schema" && "table_name" !in call.args ==> r == Failed("'table_name'")
    ensures call.name == "get_table_schema" && "table_name" in call.args ==>
      && (r.Ok? <==> GetTableSchema(tools, id, call.args["table_name"]).Ok?)
      && (r.Ok? ==> r.value == Query(GetTableSchema(tools, id, call.args["table_name"]).value))
      && (r.Failed? ==> r.message == GetTableSchema(tools, id, call.args["table_name"]).message)
    ensures call.name == "execute_sql_query" && "query" !in call.args ==> r == Failed("'query'")
    ensures call.name == "execute_sql_query" && "query" in call.args ==>
      && (r.Ok? <==> ExecuteSql(tools, id, call.args["query"]).Ok?)
      && (r.Ok? ==> r.value == Query(ExecuteSql(tools, id, call.args["query"]).value))
      && (r.Failed? ==> r.message == ExecuteSql(tools, id, call.args["query"]).message)
  {
    match call.name
    case "list_tables" => Ok(TableList(ListTables(tools, id)))
    case "get_table_schema" =>
      if "table_name" !in call.args then Failed("'table_name'")
      else
        (match GetTableSchema(tools, id, call.args["table_name"])
         case Ok(q) => Ok(Query(q))
         case Failed(m) => Failed(m))
    case "execute_sql_query" =>
      if "query" !in call.args then Failed("'query'")
      else
        (match ExecuteSql(tools, id, call.args["query"])
         case Ok(q) => Ok(Query(q))
         case Failed(m) => Failed(m))
    case _ => Ok(Text("Unknown tool: " + call.name))
  }

  /** `record` is the entry a call that does not raise adds to `tool_calls`:
      its name, its arguments and what the tool returned. */
  predicate Answers(tools: ToolEnv, id: string, call: ToolCall, record: ToolRecord)
  {
    Dispatch(tools, id, call).Ok? && record == ToolRecord(call.name, call.args, Dispatch(tools, id, call).value)
  }

  /** The records are the entries for the given calls, one for one, in order. */
  predicate RecordsMatch(tools: ToolEnv, id: string, records: seq<ToolRecord>, calls: seq<ToolCall>)
  {
    |records| == |calls| &&
    forall j :: 0 <= j < |calls| ==> Answers(tools, id, calls[j], records[j])
  }

  /** The messages are the tool messages answering the given calls one for one:
      the rendered result of the matching record, under the call's id. */
  predicate ToolMessagesFor(render: ToolResult -> string, messages: seq<ChatMessage>,
                            records: seq<ToolRecord>, calls: seq<ToolCall>)
  {
    |messages| == |calls| && |records| == |calls| &&
    forall j :: 0 <= j < |calls| ==> messages[j] == ToolMessage(render(records[j].result), calls[j].id)
  }

  /** Call `i` is the first of the calls that raises. */
  predicate FirstFailure(tools: ToolEnv, id: string, calls: seq<ToolCall>, i: int)
  {
    0 <= i < |calls| && Dispatch(tools, id, calls[i]).Failed? &&
    forall j :: 0 <= j < i ==> Dispatch(tools, id, calls[j]).Ok?
  }

  /** The first of the calls that raises raises `m`. */
  predicate FailsWith(tools: ToolEnv, id: string, calls: seq<ToolCall>, m: string)
  {
    exists i :: 0 <= i < |calls| && FirstFailure(tools, id, calls, i) && Dispatch(tools, id, calls[i]).message == m
  }

  /** The tool calls of one response, in order: each adds one record and one tool
      message (`render` is the string form of a result), or the first that raises
      ends the round with its text. */
  function RunCalls(tools: ToolEnv, id: string, render: ToolResult -> string, calls: seq<ToolCall>,
                    messages: seq<ChatMessage>, records: seq<ToolRecord>): (r: Remote<(seq<ChatMessage>, seq<ToolRecord>)>)
    ensures r.Failed? <==> exists i :: 0 <= i < |calls| && Dispatch(tools, id, calls[i]).Failed?
    ensures r.Failed? ==> FailsWith(tools, id, calls, r.message)
    ensures r.Ok? ==>
      && |r.value.0| >= |messages| && r.value.0[..|messages|] == messages
      && |r.value.1| >= |records| && r.value.1[..|records|] == records
      && RecordsMatch(tools, id, r.value.1[|records|..], calls)
      && ToolMessagesFor(render, r.value.0[|messages|..], r.value.1[|records|..], calls)
    decreases |calls|
  {
    if calls == [] then Ok((messages, records))
    else
      match Dispatch(tools, id, calls[0])
      case Failed(m) =>
        assert FirstFailure(tools, id, calls, 0);
        Failed(m)
      case Ok(result) =>
        var m1 := messages + [ToolMessage(render(result), calls[0].id)];
        var r1 := records + [ToolRecord(calls[0].name, calls[0].args, result)];
        var rest := RunCalls(tools, id, render, calls[1..], m1, r1);
        FailureCons(tools, id, calls);
        assert rest.Failed? ==> FailsWith(tools, id, calls, rest.message) by {
          if rest.Failed? {
            FailsWithCons(tools, id, calls, rest.message);
          }
        }
        assert rest.Ok? ==>
          && RecordsMatch(tools, id, rest.value.1[|records|..], calls)
          && ToolMessagesFor(render, rest.value.0[|messages|..], rest.value.1[|records|..], calls)
        by {
          if rest.Ok? {
            RecordsCons(tools, id, records, r1, rest.value.1, calls);
            ToolMessagesCons(render, messages, m1, rest.value.0, records, r1, rest.value.1, calls);
          }
        }
        rest
  }

  /** When the first call does not raise, a call raises exactly when one of the
      others does. */
  lemma FailureCons(tools: ToolEnv, id: string, calls: seq<ToolCall>)
    requires |calls| > 0 && Dispatch(tools, id, calls[0]).Ok?
    ensures (exists i :: 0 <= i < |calls| && Dispatch(tools, id, calls[i]).Failed?) <==>
            (exists i :: 0 <= i < |calls[1..]| && Dispatch(tools, id, calls[1..][i]).Failed?)
  {
    if exists i :: 0 <= i < |calls| && Dispatch(tools, id, calls[i]).Failed? {
      var i :| 0 <= i < |calls| && Dispatch(tools, id, calls[i]).Failed?;
      assert calls[1..][i - 1] == calls[i];
    }
  }

  /** When the first call does not raise, the first of the others to raise is
      the first overall. */
  lemma FailsWithCons(tools: ToolEnv, id: string, calls: seq<ToolCall>, m: string)
    requires |calls| > 0 && Dispatch(tools, id, calls[0]).Ok?
    requires FailsWith(tools, id, calls[1..], m)
    ensures FailsWith(tools, id, calls, m)
  {
    var i :| 0 <= i < |calls[1..]| && FirstFailure(tools, id, calls[1..], i) && Dispatch(tools, id, calls[1..][i]).message == m;
    assert calls[1..][i] == calls[i + 1];
    forall j | 0 <= j < i + 1
      ensures Dispatch(tools, id, calls[j]).Ok?
    {
      if j > 0 {
        assert calls[1..][j - 1] == calls[j];
      }
    }
    assert FirstFailure(tools, id, calls, i + 1);
  }

  /** One record followed by the records for the remaining calls matches all the calls. */
  lemma RecordsCons(tools: ToolEnv, id: string, before: seq<ToolRecord>, mid: seq<ToolRecord>,
                    final: seq<ToolRecord>, calls: seq<ToolCall>)
    requires |calls| > 0 && |mid| == |before| + 1 && mid[..|before|] == before
    requires Answers(tools, id, calls[0], mid[|before|])
    requires |final| >= |mid| && final[..|mid|] == mid
    requires RecordsMatch(tools, id, final[|mid|..], calls[1..])
    ensures final[..|before|] == before
    ensures RecordsMatch(tools, id, final[|before|..], calls)
  {
    assert final[..|before|] == mid[..|before|];
    var tail := final[|before|..];
    forall j | 0 <= j < |calls|
      ensures Answers(tools, id, calls[j], tail[j])
    {
      if j == 0 {
        assert tail[0] == mid[|before|];
      } else {
        assert tail[j] == final[|mid|..][j - 1];
        assert calls[1..][j - 1] == calls[j];
      }
    }
  }

  /** One tool message followed by the messages for the remaining calls answers all the calls. */
  lemma ToolMessagesCons(render: ToolResult -> string, before: seq<ChatMessage>, mid: seq<ChatMessage>,
                         final: seq<ChatMessage>, beforeR: seq<ToolRecord>, midR: seq<ToolRecord>,
                         finalR: seq<ToolRecord>, calls: seq<ToolCall>)
    requires |calls| > 0 && |mid| == |before| + 1 && mid[..|before|] == before
    requires |midR| == |beforeR| + 1 && |finalR| >= |midR| && finalR[..|midR|] == midR
    requires mid[|before|] == ToolMessage(render(midR[|beforeR|].result), calls[0].id)
    requires |final| >= |mid| && final[..|mid|] == mid
    requires ToolMessagesFor(render, final[|mid|..], finalR[|midR|..], calls[1..])
    ensures final[..|before|] == before
    ensures ToolMessagesFor(render, final[|before|..], finalR[|beforeR|..], calls)
  {
    assert final[..|before|] == mid[..|before|];
    var tail, tailR := final[|before|..], finalR[|beforeR|..];
    forall j | 0 <= j < |calls|
      ensures tail[j] == ToolMessage(render(tailR[j].result), calls[j].id)
    {
      if j == 0 {
        assert tail[0] == mid[|before|];
        assert tailR[0] == midR[|beforeR|];
      } else {
        assert tail[j] == final[|mid|..][j - 1];
        assert tailR[j] == finalR[|midR|..][j - 1];
        assert calls[1..][j - 1] == calls[j];
      }
    }
  }

  /** How the agent loop ends: an answer, the text of what was raised, or the end
      of the scripted model replies (the loop itself has no bound). */
  datatype AgentOutcome = Answered(content: string) | AgentFailed(message: string) | ScriptExhausted

  /** The loop's end state: outcome, conversation, records and the number of
      rounds that ran tools. */
  datatype AgentRun = AgentRun(outcome: AgentOutcome, messages: seq<ChatMessage>, records: seq<ToolRecord>, rounds: nat)

  /** The tool calls the first replies asked for, in order. */
  function FlatCalls(replies: seq<LlmReply>): seq<ToolCall>
  {
    if replies == [] then []
    else (if replies[0].Responded? then replies[0].toolCalls else []) + FlatCalls(replies[1..])
  }

  /** A reply that sends the loop round again: it asks for tools, and none of
      them raises. */
  predicate ToolRound(tools: ToolEnv, id: string, reply: LlmReply)
  {
    reply.Responded? && reply.toolCalls != [] &&
    forall i :: 0 <= i < |reply.toolCalls| ==> Dispatch(tools, id, reply.toolCalls[i]).Ok?
  }

  /** The first `k` replies all send the loop round again. */
  predicate ToolRounds(tools: ToolEnv, id: string, script: seq<LlmReply>, k: nat)
  {
    k <= |script| && forall j :: 0 <= j < k ==> ToolRound(tools, id, script[j])
  }

  /** How reply `k`, the one after the tool rounds, ends the loop: with no tool
      calls it is the answer; a raising model call or the first raising tool call
      gives the failure's text; and past the last reply the script is exhausted. */
  predicate EndsAt(tools: ToolEnv, id: string, outcome: AgentOutcome, script: seq<LlmReply>, k: nat)
  {
    match outcome
    case Answered(content) => k < |script| && script[k] == Responded(content, [])
    case AgentFailed(m) =>
      k < |script| &&
      (script[k] == Raised(m) ||
       (script[k].Responded? && FailsWith(tools, id, script[k].toolCalls, m)))
    case ScriptExhausted => k == |script|
  }

  /** What every run of the loop from `script`, `messages`, `records` and
      `rounds` satisfies: the replies it went round on all asked for tools that
      did not raise, and the next one ended it; the conversation grows by one
      assistant message per round and one tool message per record; the records
      only grow, and the new ones are the entries for the calls of those rounds,
      in order. */
  predicate ProperRun(tools: ToolEnv, id: string, r: AgentRun, script: seq<LlmReply>,
                      messages: seq<ChatMessage>, records: seq<ToolRecord>, rounds: nat)
  {
    && rounds <= r.rounds <= rounds + |script|
    && ToolRounds(tools, id, script, r.rounds - rounds)
    && EndsAt(tools, id, r.outcome, script, r.rounds - rounds)
    && |r.messages| - |messages| == (r.rounds - rounds) + (|r.records| - |records|)
    && |r.records| >= |records| && r.records[..|records|] == records
    && RecordsMatch(tools, id, r.records[|records|..], FlatCalls(script[..r.rounds - rounds]))
  }

  /** The agent loop over the scripted model replies, from a conversation and
      record list so far: the rounds run are at most the replies, the
      conversation grows by one assistant message per round and one tool
      message per record, and the records only grow. */
  function Agent(tools: ToolEnv, id: string, render: ToolResult -> string, script: seq<LlmReply>,
                 messages: seq<ChatMessage>, records: seq<ToolRecord>, rounds: nat): (r: AgentRun)
    ensures rounds <= r.rounds <= rounds + |script|
    ensures |r.messages| - |messages| == (r.rounds - rounds) + (|r.records| - |records|)
    ensures |r.records| >= |records| && r.records[..|records|] == records
    decreases |script|
  {
    if script == [] then AgentRun(ScriptExhausted, messages, records, rounds)
    else match script[0]
      case Raised(m) => AgentRun(AgentFailed(m), messages, records, rounds)
      case Responded(content, calls) =>
        if calls == [] then
          AgentRun(Answered(content), messages, records, rounds)
        else match RunCalls(tools, id, render, calls, messages + [Assistant(content, calls)], records)
          case Failed(m) => AgentRun(AgentFailed(m), messages, records, rounds)
          case Ok(next) =>
            var r := Agent(tools, id, render, script[1..], next.0, next.1, rounds + 1);
            assert r.records[..|records|] == r.records[..|next.1|][..|records|];
            r
  }

  /** Every run of the loop is a proper run: it goes round on replies that asked
      for tools that did not raise, the next reply ends it, and the new records
      are the entries of those rounds' calls, in order. */
  lemma {:induction false} AgentProper(tools: ToolEnv, id: string, render: ToolResult -> string, script: seq<LlmReply>,
                                       messages: seq<ChatMessage>, records: seq<ToolRecord>, rounds: nat)
    ensures ProperRun(tools, id, Agent(tools, id, render, script, messages, records, rounds), script, messages, records, rounds)
    decreases |script|
  {
    if script == [] || script[0].Raised? || script[0].toolCalls == [] {
      EndsAtOnce(tools, id, Agent(tools, id, render, script, messages, records, rounds), script, messages, records, rounds);
    } else {
      var calls := script[0].toolCalls;
      var round := RunCalls(tools, id, render, calls, messages + [Assistant(script[0].content, calls)], records);
      if round.Failed? {
        EndsAtOnce(tools, id, Agent(tools, id, render, script, messages, records, rounds), script, messages, records, rounds);
      } else {
        AgentProper(tools, id, render, script[1..], round.value.0, round.value.1, rounds + 1);
        assert ToolRound(tools, id, script[0]);
        AgentStep(tools, id, script, messages, records, rounds, round.value,
                  Agent(tools, id, render, script[1..], round.value.0, round.value.1, rounds + 1));
      }
    }
  }

  /** A run that ends on its first reply, with nothing added, is a proper run. */
  lemma EndsAtOnce(tools: ToolEnv, id: string, r: AgentRun, script: seq<LlmReply>,
                   messages: seq<ChatMessage>, records: seq<ToolRecord>, rounds: nat)
    requires r.rounds == rounds && r.messages == messages && r.records == records
    requires EndsAt(tools, id, r.outcome, script, 0)
    ensures ProperRun(tools, id, r, script, messages, records, rounds)
  {
    assert r.records[|records|..] == [] && script[..0] == [];
  }

  /** A run from after one tool round is a proper run from before it. */
  lemma AgentStep(tools: ToolEnv, id: string, script: seq<LlmReply>,
                  messages: seq<ChatMessage>, records: seq<ToolRecord>, rounds: nat,
                  next: (seq<ChatMessage>, seq<ToolRecord>), r: AgentRun)
    requires script != [] && ToolRound(tools, id, script[0])
    requires |next.0| - |messages| == 1 + |next.1| - |records|
    requires |next.1| >= |records| && next.1[..|records|] == records
    requires RecordsMatch(tools, id, next.1[|records|..], script[0].toolCalls)
    requires ProperRun(tools, id, r, script[1..], next.0, next.1, rounds + 1)
    ensures ProperRun(tools, id, r, script, messages, records, rounds)
  {
    var later := r.rounds - (rounds + 1);
    assert r.records[..|records|] == r.records[..|next.1|][..|records|];
    RoundsCons(tools, id, script, later);
    EndsAtCons(tools, id, r.outcome, script, later);
    AgentRecordsFollowCalls(tools, id, script, later + 1, script[0].toolCalls, records, next.1, r.records);
  }

  /** A tool round followed by `later` tool rounds is `later + 1` tool rounds. */
  lemma RoundsCons(tools: ToolEnv, id: string, script: seq<LlmReply>, later: nat)
    requires script != [] && ToolRound(tools, id, script[0])
    requires ToolRounds(tools, id, script[1..], later)
    ensures ToolRounds(tools, id, script, later + 1)
  {
    forall j | 0 <= j < later + 1
      ensures ToolRound(tools, id, script[j])
    {
      if j > 0 {
        assert script[1..][j - 1] == script[j];
      }
    }
  }

  /** Ending `later` replies on is ending `later + 1` replies on from one reply earlier. */
  lemma EndsAtCons(tools: ToolEnv, id: string, outcome: AgentOutcome, script: seq<LlmReply>, later: nat)
    requires script != [] && EndsAt(tools, id, outcome, script[1..], later)
    ensures EndsAt(tools, id, outcome, script, later + 1)
  {
    if later + 1 < |script| {
      assert script[1..][later] == script[later + 1];
    }
  }

  /** The step that lets one round's records join the later ones in order. */
  lemma AgentRecordsFollowCalls(tools: ToolEnv, id: string, script: seq<LlmReply>, k: nat, calls: seq<ToolCall>,
                                records: seq<ToolRecord>, mid: seq<ToolRecord>, final: seq<ToolRecord>)
    requires 1 <= k <= |script| && script[0].Responded? && script[0].toolCalls == calls
    requires |mid| >= |records| && mid[..|records|] == records
    requires RecordsMatch(tools, id, mid[|records|..], calls)
    requires |final| >= |mid| && final[..|mid|] == mid
    requires RecordsMatch(tools, id, final[|mid|..], FlatCalls(script[1..][..k - 1]))
    ensures RecordsMatch(tools, id, final[|records|..], FlatCalls(script[..k]))
  {
    assert script[..k][0] == script[0];
    assert script[..k][1..] == script[1..][..k - 1];
    var rest := FlatCalls(script[1..][..k - 1]);
    assert FlatCalls(script[..k]) == calls + rest;
    var tail := final[|records|..];
    assert |tail| == |calls| + |rest|;
    forall j | 0 <= j < |calls| + |rest|
      ensures Answers(tools, id, (calls + rest)[j], tail[j])
    {
      if j < |calls| {
        assert tail[j] == mid[|records|..][j];
      } else {
        assert tail[j] == final[|mid|..][j - |calls|];
      }
    }
  }

  /** The loop goes round on the first `k` replies and no further when reply `k`
      does not send it round again. */
  lemma RoundsOfRun(tools: ToolEnv, id: string, r: AgentRun, script: seq<LlmReply>,
                    messages: seq<ChatMessage>, records: seq<ToolRecord>, k: nat)
    requires ProperRun(tools, id, r, script, messages, records, 0)
    requires ToolRounds(tools, id, script, k) && (k == |script| || !ToolRound(tools, id, script[k]))
    ensures r.rounds == k
  {
  }

  /** The records of a whole conversation are the entries of the calls of the
      rounds it went round on, in order. */
  lemma ConversationRecords(tools: ToolEnv, id: string, render: ToolResult -> string, script: seq<LlmReply>, message: string)
    ensures var run := Agent(tools, id, render, script, [Human(message)], [], 0);
      RecordsMatch(tools, id, run.records, FlatCalls(script[..run.rounds]))
  {
    var run := Agent(tools, id, render, script, [Human(message)], [], 0);
    AgentProper(tools, id, render, script, [Human(message)], [], 0);
    assert run.records[0..] == run.records;
  }

  /** One round's `for` loop over the tool calls: each call is dispatched, its
      entry appended to the records and its rendered result to the conversation;
      the first call that raises leaves the loop with its text. */
  method RunRound(tools: ToolEnv, id: string, render: ToolResult -> string, calls: seq<ToolCall>,
                  messages: seq<ChatMessage>, records: seq<ToolRecord>)
    returns (r: Remote<(seq<ChatMessage>, seq<ToolRecord>)>)
    ensures r == RunCalls(tools, id, render, calls, messages, records)
  {
    var msgs, recs := messages, records;
    var j := 0;
    while j < |calls|
      invariant 0 <= j <= |calls|
      invariant RunCalls(tools, id, render, calls[j..], msgs, recs)
             == RunCalls(tools, id, render, calls, messages, records)
    {
      var call := calls[j];
      assert calls[j..][0] == call && calls[j..][1..] == calls[j + 1..];
      var result := Dispatch(tools, id, call);
      if result.Failed? {
        return Failed(result.message);
      }
      recs := recs + [ToolRecord(call.name, call.args, result.value)];
      msgs := msgs + [ToolMessage(render(result.value), call.id)];
      j := j + 1;
    }
    assert calls[j..] == [];
    r := Ok((msgs, recs));
  }

  /** The agent loop as the handler runs it: call the model, stop on a reply
      with no tool calls, otherwise run each call and go round again. */
  method RunAgent(tools: ToolEnv, id: string, render: ToolResult -> string, message: string, script: seq<LlmReply>)
    returns (run: AgentRun)
    ensures run == Agent(tools, id, render, script, [Human(message)], [], 0)
    ensures |run.messages| == 1 + run.rounds + |run.records|
    ensures RecordsMatch(tools, id, run.records, FlatCalls(script[..run.rounds]))
  {
    ConversationRecords(tools, id, render, script, message);
    var messages := [Human(message)];
    var records: seq<ToolRecord> := [];
    var rounds: nat := 0;
    var i := 0;
    while i < |script|
      invariant 0 <= i <= |script|
      invariant Agent(tools, id, render, script[i..], messages, records, rounds)
             == Agent(tools, id, render, script, [Human(message)], [], 0)
    {
      var reply := script[i];
      assert script[i..][0] == reply && script[i..][1..] == script[i + 1..];
      if reply.Raised? {
        return AgentRun(AgentFailed(reply.message), messages, records, rounds);
      }
      if reply.toolCalls == [] {
        return AgentRun(Answered(reply.content), messages, records, rounds);
      }
      var next := RunRound(tools, id, render, reply.toolCalls, messages + [Assistant(reply.content, reply.toolCalls)], records);
      if next.Failed? {
        return AgentRun(AgentFailed(next.message), messages, records, rounds);
      }
      messages, records := next.value.0, next.value.1;
      rounds := rounds + 1;
      i := i + 1;
    }
    assert script[i..] == [];
    run := AgentRun(ScriptExhausted, messages, records, rounds);
    assert run.records[0..] == run.records;
  }

  const AgentFailedPrefix := "Agent execution failed: "

  /** The whole handler; `None` when the scripted model replies run out before
      an answer. */
  function QueryOutcome(req: ChatRequest, header: Option<string>, auth: AuthEnv, llm: LlmEnv,
                        tools: ToolEnv, render: ToolResult -> string, script: seq<LlmReply>): (r: Option<HttpResult<ChatResponse>>)
    ensures Authenticate(header, auth).HttpError? ==>
      r == Some(HttpError(401, Authenticate(header, auth).detail))
    ensures r.Some? && r.value.Success? ==> Authenticate(header, auth).Success? && LlmBound(llm)
    ensures Authenticate(header, auth).Success? && llm.groqKey.Some? && llm.groqKey.value != "" && llm.groqInit.Failed? ==>
      r == Some(HttpError(500, "Failed to initialize LLM: " + llm.groqInit.message))
    ensures Authenticate(header, auth).Success? && (llm.groqKey.None? || llm.groqKey.value == "") ==>
      r == Some(HttpError(500, AgentFailedPrefix + UnboundLlmMessage))
    ensures Authenticate(header, auth).Success? && LlmBound(llm) ==>
      var run := Agent(tools, req.connectionId, render, script, [Human(req.message)], [], 0);
      && (run.outcome.Answered? ==> r == Some(Success(ChatResponse(run.outcome.content, run.records))))
      && (run.outcome.AgentFailed? ==> r == Some(HttpError(500, AgentFailedPrefix + run.outcome.message)))
      && (run.outcome.ScriptExhausted? ==> r.None?)
  {
    if Authenticate(header, auth).HttpError? then Some(HttpError(401, Authenticate(header, auth).detail))
    else if llm.groqKey.Some? && llm.groqKey.value != "" && llm.groqInit.Failed? then
      Some(HttpError(500, "Failed to initialize LLM: " + llm.groqInit.message))
    else if !LlmBound(llm) then
      Some(HttpError(500, AgentFailedPrefix + UnboundLlmMessage))
    else
      var run := Agent(tools, req.connectionId, render, script, [Human(req.message)], [], 0);
      match run.outcome
      case Answered(content) => Some(Success(ChatResponse(content, run.records)))
      case AgentFailed(m) => Some(HttpError(500, AgentFailedPrefix + m))
      case ScriptExhausted => None
  }

  /** The model provider named in the request makes no difference. */
  lemma ModelProviderIgnored(req: ChatRequest, other: string, header: Option<string>, auth: AuthEnv, llm: LlmEnv,
                             tools: ToolEnv, render: ToolResult -> string, script: seq<LlmReply>)
    ensures QueryOutcome(req, header, auth, llm, tools, render, script)
         == QueryOutcome(req.(modelProvider := other), header, auth, llm, tools, render, script)
  {
  }

  /** A successful reply carries the content of the first reply without tool
      calls, every reply before it having asked for tools that did not raise,
      and the entry for each of those calls, in order. */
  lemma AnswerCarriesAllRecords(req: ChatRequest, header: Option<string>, auth: AuthEnv, llm: LlmEnv,
                                tools: ToolEnv, render: ToolResult -> string, script: seq<LlmReply>)
    requires QueryOutcome(req, header, auth, llm, tools, render, script).Some?
    requires QueryOutcome(req, header, auth, llm, tools, render, script).value.Success?
    ensures var body := QueryOutcome(req, header, auth, llm, tools, render, script).value.body;
      exists k: nat :: ToolRounds(tools, req.connectionId, script, k) && k < |script|
        && script[k] == Responded(body.response, [])
        && RecordsMatch(tools, req.connectionId, body.toolCalls, FlatCalls(script[..k]))
  {
    var run := Agent(tools, req.connectionId, render, script, [Human(req.message)], [], 0);
    AgentProper(tools, req.connectionId, render, script, [Human(req.message)], [], 0);
    assert run.records[0..] == run.records;
  }

  /** After a successful authentication with a model built, the reply after the
      tool rounds decides the outcome: a reply without tool calls is the answer,
      with the entries of every earlier call; a raising model call, or the first
      raising tool call of that reply, gives 500 with the text of what was raised. */
  lemma OutcomeAfterToolRounds(req: ChatRequest, header: Option<string>, auth: AuthEnv, llm: LlmEnv,
                               tools: ToolEnv, render: ToolResult -> string, script: seq<LlmReply>, k: nat)
    requires Authenticate(header, auth).Success? && LlmBound(llm)
    requires ToolRounds(tools, req.connectionId, script, k) && k < |script|
    ensures script[k].Raised? ==>
      QueryOutcome(req, header, auth, llm, tools, render, script) == Some(HttpError(500, AgentFailedPrefix + script[k].message))
    ensures script[k].Responded? && script[k].toolCalls == [] ==>
      var r := QueryOutcome(req, header, auth, llm, tools, render, script);
      && r.Some? && r.value.Success? && r.value.body.response == script[k].content
      && RecordsMatch(tools, req.connectionId, r.value.body.toolCalls, FlatCalls(script[..k]))
    ensures forall i :: script[k].Responded? && FirstFailure(tools, req.connectionId, script[k].toolCalls, i) ==>
      QueryOutcome(req, header, auth, llm, tools, render, script)
        == Some(HttpError(500, AgentFailedPrefix + Dispatch(tools, req.connectionId, script[k].toolCalls[i]).message))
  {
    var id := req.connectionId;
    var run := Agent(tools, id, render, script, [Human(req.message)], [], 0);
    AgentProper(tools, id, render, script, [Human(req.message)], [], 0);
    assert run.records[0..] == run.records;
    if !ToolRound(tools, id, script[k]) {
      RoundsOfRun(tools, id, run, script, [Human(req.message)], [], k);
      if script[k].Responded? && script[k].toolCalls != [] && run.outcome.AgentFailed? {
        var calls := script[k].toolCalls;
        var i :| 0 <= i < |calls| && FirstFailure(tools, id, calls, i)
              && Dispatch(tools, id, calls[i]).message == run.outcome.message;
        forall i' | FirstFailure(tools, id, calls, i')
          ensures Dispatch(tools, id, calls[i']).message == run.outcome.message
        {
          FirstFailureUnique(tools, id, calls, i, i');
        }
      }
    }
  }

  /** Only one call is the first to raise. */
  lemma FirstFailureUnique(tools: ToolEnv, id: string, calls: seq<ToolCall>, i: int, i': int)
    requires FirstFailure(tools, id, calls, i) && FirstFailure(tools, id, calls, i')
    ensures i == i'
  {
  }

  /** `POST /api/chat`. */
  method HandleQuery(req: ChatRequest, header: Option<string>, auth: AuthEnv, llm: LlmEnv,
                     tools: ToolEnv, render: ToolResult -> string, script: seq<LlmReply>)
    returns (r: Option<HttpResult<ChatResponse>>)
    ensures r == QueryOutcome(req, header, auth, llm, tools, render, script)
  {
    var authResult := Authenticate(header, auth);
    if authResult.HttpError? {
      return Some(HttpError(401, authResult.detail));
    }
    var bound := false;
    if llm.groqKey.Some? && llm.groqKey.value != "" {
      if llm.groqInit.Failed? {
        return Some(HttpError(500, "Failed to initialize LLM: " + llm.groqInit.message));
      }
      bound := true;
    }
    if !bound {
      return Some(HttpError(500, AgentFailedPrefix + UnboundLlmMessage));
    }
    var run := RunAgent(tools, req.connectionId, render, req.message, script);
    match run.outcome {
      case Answered(content) => r := Some(Success(ChatResponse(content, run.records)));
      case AgentFailed(m) => r := Some(HttpError(500, AgentFailedPrefix + m));
      case ScriptExhausted => r := None;
    }
  }
}
