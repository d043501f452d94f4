/**
 * `FunctionClient`: a conversation log that grows by appending, and the
 * loop that answers a model's tool calls until the model replies in text.
 *
 * The completion service is not modelled; each turn is handed the response
 * the service gives, and a conversation is handed the responses of its
 * turns in order. Decoding a call's JSON arguments and invoking a Python
 * callable are foreign, so a `Host` supplies both.
 */
module Client {
  import opened Wrappers
  import opened Schema

  /** One entry of `message.tool_calls`: its `id`, `function.name` and `function.arguments`. */
  datatype Call = Call(id: string, name: string, arguments: string)

  /** `response.choices[0].message`: its text `content`, possibly absent, and its `tool_calls`, absent being empty. */
  datatype Response = Response(content: Option<string>, toolCalls: seq<Call>)

  /**
   * One dictionary of the log. A user or assistant message has only `role`
   * and `content`; a function message also has `tool_call_id` and `name`.
   * A role or a content can be `None` in Python, so both are optional here.
   */
  datatype Message = Message(role: Option<string>, content: Option<string>, toolCallId: Option<string>, name: Option<string>)

  /** The exceptions that escape a turn. */
  datatype ClientError =
    | SchemaFailure(cause: SchemaError)                // ValueError from to_tool
    | MalformedArguments(callId: string)               // json.loads rejects the arguments
    | UnknownTool(toolName: string)                    // KeyError from the name map
    | ToolRaised(toolName: string, reason: string)     // the tool itself raised, or refused the arguments
    | NotAType                                         // TypeError from isinstance
    | NoMoreResponses                                  // the supplied responses ran out before a text reply

  /**
   * The foreign side of a tool call: whether `json.loads` accepts an argument
   * string, and what calling a function with those arguments returns or raises.
   */
  datatype Host = Host(decodes: string -> bool, invoke: (Func, string) -> Result<string, string>)

  function UserMessage(content: string, role: Option<string>): Message {
    Message(role, Some(content), None, None)
  }

  function AssistantMessage(content: Option<string>): Message {
    Message(Some("assistant"), content, None, None)
  }

  function FunctionMessage(c: Call, result: string): Message {
    Message(Some("function"), Some(result), Some(c.id), Some(c.name))
  }

  predicate IsFunctionMessageFor(m: Message, c: Call) {
    m.role == Some("function") && m.toolCallId == Some(c.id) && m.name == Some(c.name) && m.content.Some?
  }

  /**
   * One iteration of the tool-call loop: decode the arguments, look the tool
   * up by name, call it, and log its result under the call's id and name.
   */
  function CallStep(registry: map<string, Func>, c: Call, host: Host): (r: Result<Message, ClientError>)
    ensures r.Ok? <==> host.decodes(c.arguments) && c.name in registry && host.invoke(registry[c.name], c.arguments).Ok?
    ensures r.Ok? ==> IsFunctionMessageFor(r.value, c)
                      && r.value.content == Some(host.invoke(registry[c.name], c.arguments).value)
    ensures host.decodes(c.arguments) && c.name !in registry ==> r == Err(UnknownTool(c.name))
    ensures !host.decodes(c.arguments) ==> r == Err(MalformedArguments(c.id))
    ensures host.decodes(c.arguments) && c.name in registry && host.invoke(registry[c.name], c.arguments).Err? ==>
              r == Err(ToolRaised(c.name, host.invoke(registry[c.name], c.arguments).error))
  {
    if !host.decodes(c.arguments) then Err(MalformedArguments(c.id))
    else if c.name !in registry then Err(UnknownTool(c.name))
    else
      match host.invoke(registry[c.name], c.arguments)
      case Err(reason) => Err(ToolRaised(c.name, reason))
      case Ok(result) => Ok(FunctionMessage(c, result))
  }

  /**
   * The messages the tool-call loop appends, and the exception that stops it
   * if one does: the loop logs the calls in order and stops at the first
   * call that raises, keeping what it logged before it.
   */
  function Dispatch(registry: map<string, Func>, calls: seq<Call>, host: Host): (r: (seq<Message>, Option<ClientError>))
    ensures |r.0| <= |calls|
    ensures forall i :: 0 <= i < |r.0| ==> CallStep(registry, calls[i], host) == Ok(r.0[i])
    ensures forall i :: 0 <= i < |r.0| ==> IsFunctionMessageFor(r.0[i], calls[i])
    ensures r.1.None? ==> |r.0| == |calls|
    ensures r.1.Some? ==> |r.0| < |calls| && CallStep(registry, calls[|r.0|], host) == Err(r.1.value)
  {
    if calls == [] then ([], None)
    else
      var init := calls[..|calls| - 1];
      assert forall i :: 0 <= i < |init| ==> init[i] == calls[i];
      var (msgs, err) := Dispatch(registry, init, host);
      if err.Some? then (msgs, err)
      else
        match CallStep(registry, calls[|calls| - 1], host)
        case Err(e) => (msgs, Some(e))
        case Ok(m) => (msgs + [m], None)
  }

  /** Once the loop has stopped on a prefix of the calls, the later calls change nothing. */
  lemma DispatchStops(registry: map<string, Func>, calls: seq<Call>, host: Host, n: nat)
    requires n <= |calls| && Dispatch(registry, calls[..n], host).1.Some?
    ensures Dispatch(registry, calls, host) == Dispatch(registry, calls[..n], host)
  {
    var p := Dispatch(registry, calls[..n], host);
    var d := Dispatch(registry, calls, host);
    var k := |p.0|;
    assert calls[..n][k] == calls[k];
    assert forall i :: 0 <= i < k ==> calls[..n][i] == calls[i];
    assert d.1.Some? && |d.0| == k;
    assert d.0 == p.0;
  }

  /** The loop stops at the first call that raises, having logged exactly the calls before it. */
  lemma DispatchFailsAt(registry: map<string, Func>, calls: seq<Call>, host: Host, k: nat)
    requires k < |calls| && CallStep(registry, calls[k], host).Err?
    requires forall j :: 0 <= j < k ==> CallStep(registry, calls[j], host).Ok?
    ensures Dispatch(registry, calls, host) == (Dispatch(registry, calls, host).0, Some(CallStep(registry, calls[k], host).error))
    ensures |Dispatch(registry, calls, host).0| == k
  {
    var d := Dispatch(registry, calls, host);
  }

  /** When every call succeeds, the loop logs one message per call and raises nothing. */
  lemma DispatchAllOk(registry: map<string, Func>, calls: seq<Call>, host: Host)
    requires forall i :: 0 <= i < |calls| ==> CallStep(registry, calls[i], host).Ok?
    ensures Dispatch(registry, calls, host).1.None? && |Dispatch(registry, calls, host).0| == |calls|
  {
  }

  /** What one call of `internal_send_message` appends to the log, and what it returns or raises. */
  datatype TurnEffect = TurnEffect(appended: seq<Message>, outcome: Result<bool, ClientError>)

  /**
   * One turn: build the descriptors and the name map (which can raise before
   * anything is sent), then either answer every tool call of the response
   * and report that the conversation goes on, or log the text reply and
   * report that it is done.
   */
  function Turn(built: Result<(seq<Tool>, map<string, Func>), SchemaError>, response: Response, host: Host): (t: TurnEffect)
    ensures built.Err? ==> t == TurnEffect([], Err(SchemaFailure(built.error)))
    ensures t.outcome == Ok(true) <==> built.Ok? && response.toolCalls == []
    ensures t.outcome == Ok(true) ==> t.appended == [AssistantMessage(response.content)]
    ensures t.outcome == Ok(false) ==> |t.appended| == |response.toolCalls| > 0
    ensures response.toolCalls != [] ==> |t.appended| <= |response.toolCalls|
                                         && forall i :: 0 <= i < |t.appended| ==> IsFunctionMessageFor(t.appended[i], response.toolCalls[i])
    ensures built.Ok? && response.toolCalls != [] ==>
              var d := Dispatch(built.value.1, response.toolCalls, host);
              && t.appended == d.0
              && (d.1.None? ==> t.outcome == Ok(false))
              && (d.1.Some? ==> t.outcome == Err(d.1.value))
  {
    match built
    case Err(e) => TurnEffect([], Err(SchemaFailure(e)))
    case Ok((tools, registry)) =>
      if response.toolCalls != [] then
        var (msgs, err) := Dispatch(registry, response.toolCalls, host);
        TurnEffect(msgs, if err.Some? then Err(err.value) else Ok(false))
      else
        TurnEffect([AssistantMessage(response.content)], Ok(true))
  }

  /** A call naming a function that is not offered fails with `KeyError`, after the calls before it are logged. */
  lemma TurnUnknownTool(functions: seq<Func>, response: Response, host: Host, k: nat)
    requires ToolsOf(functions).Ok? && k < |response.toolCalls|
    requires forall j :: 0 <= j < k ==> CallStep(Registry(functions), response.toolCalls[j], host).Ok?
    requires host.decodes(response.toolCalls[k].arguments)
    requires forall f :: f in functions ==> f.name != response.toolCalls[k].name
    ensures Turn(FuncsToTools(functions), response, host).outcome == Err(UnknownTool(response.toolCalls[k].name))
    ensures |Turn(FuncsToTools(functions), response, host).appended| == k
  {
    var registry := Registry(functions);
    assert response.toolCalls[k].name !in registry;
    DispatchFailsAt(registry, response.toolCalls, host, k);
    assert FuncsToTools(functions) == Ok((ToolsOf(functions).value, registry));
  }

  /** The log when `send_message` is over, and what it returns or raises. */
  datatype Exchange = Exchange(log: seq<Message>, outcome: Result<Option<string>, ClientError>)

  /** The effect each response would have as a turn on the same functions. */
  function Turns(built: Result<(seq<Tool>, map<string, Func>), SchemaError>, responses: seq<Response>, host: Host): (ts: seq<TurnEffect>)
    ensures |ts| == |responses|
  {
    if responses == [] then [] else [Turn(built, responses[0], host)] + Turns(built, responses[1..], host)
  }

  /** The turn recorded for response `i` is the turn that response makes. */
  lemma {:induction false} TurnsAt(built: Result<(seq<Tool>, map<string, Func>), SchemaError>, responses: seq<Response>, host: Host, i: nat)
    requires i < |responses|
    ensures Turns(built, responses, host)[i] == Turn(built, responses[i], host)
  {
    if i > 0 {
      TurnsAt(built, responses[1..], host, i - 1);
    }
  }

  /** Every turn of the run answers its own response. */
  lemma TurnsAnswer(built: Result<(seq<Tool>, map<string, Func>), SchemaError>, responses: seq<Response>, host: Host, i: nat)
    requires i < |responses|
    ensures Answers(Turns(built, responses, host)[i], responses[i])
  {
    TurnsAt(built, responses, host, i);
  }

  /**
   * How a run of turns ends, starting from `log`: turns go on while they
   * report that the conversation is not done; a text reply ends it with the
   * content of its response, an exception ends it with that exception, and
   * a turn that finds no response left ends it with `exhausted`. Every turn
   * taken logs what it appended.
   */
  function Settle(turns: seq<TurnEffect>, responses: seq<Response>, log: seq<Message>, exhausted: ClientError): Exchange
    requires |turns| == |responses|
    decreases |turns|
  {
    if turns == [] then Exchange(log, Err(exhausted))
    else
      match turns[0].outcome
      case Err(e) => Exchange(log + turns[0].appended, Err(e))
      case Ok(done) =>
        if done then Exchange(log + turns[0].appended, Ok(responses[0].content))
        else Settle(turns[1..], responses[1..], log + turns[0].appended, exhausted)
  }

  /** All messages a run of turns appends, in order. */
  function Appended(turns: seq<TurnEffect>): seq<Message> {
    if turns == [] then [] else turns[0].appended + Appended(turns[1..])
  }

  /** The turn at index `i` either ends the run that starts there, or the turns after it carry it on. */
  lemma SettleAt(turns: seq<TurnEffect>, responses: seq<Response>, i: nat, log: seq<Message>, exhausted: ClientError)
    requires i < |turns| == |responses|
    ensures var t := turns[i];
            var x := Settle(turns[i..], responses[i..], log, exhausted);
            (t.outcome == Ok(false) ==> x == Settle(turns[i + 1..], responses[i + 1..], log + t.appended, exhausted))
            && (t.outcome.Err? ==> x == Exchange(log + t.appended, Err(t.outcome.error)))
            && (t.outcome == Ok(true) ==> x == Exchange(log + t.appended, Ok(responses[i].content)))
  {
    assert turns[i..][0] == turns[i] && turns[i..][1..] == turns[i + 1..];
    assert responses[i..][0] == responses[i] && responses[i..][1..] == responses[i + 1..];
  }

  /**
   * A run that ends well ends at its first text reply, and its log is the
   * starting log followed by everything the turns up to that reply appended.
   */
  lemma {:induction false} SettleOk(turns: seq<TurnEffect>, responses: seq<Response>, log: seq<Message>, exhausted: ClientError) returns (k: nat)
    requires |turns| == |responses| && Settle(turns, responses, log, exhausted).outcome.Ok?
    ensures k < |turns| && turns[k].outcome == Ok(true)
    ensures forall j :: 0 <= j < k ==> turns[j].outcome == Ok(false)
    ensures Settle(turns, responses, log, exhausted) == Exchange(log + Appended(turns[..k]) + turns[k].appended, Ok(responses[k].content))
  {
    var t := turns[0];
    if t.outcome == Ok(false) {
      var k' := SettleOk(turns[1..], responses[1..], log + t.appended, exhausted);
      k := k' + 1;
      assert turns[..k][0] == t && turns[..k][1..] == turns[1..][..k'];
      var rest := Appended(turns[1..][..k']);
      assert Appended(turns[..k]) == t.appended + rest;
      assert (log + t.appended) + rest == log + (t.appended + rest);
      forall j | 0 <= j < k
        ensures turns[j].outcome == Ok(false)
      {
        if j > 0 {
          assert turns[j] == turns[1..][j - 1];
        }
      }
      assert turns[k] == turns[1..][k'] && responses[k] == responses[1..][k'];
    } else {
      k := 0;
      assert turns[..0] == [] && log + [] == log;
    }
  }

  /** A run whose turns go on up to a done turn ends there, with that turn's response and everything logged before it. */
  lemma {:induction false} SettleProgress(turns: seq<TurnEffect>, responses: seq<Response>, log: seq<Message>, exhausted: ClientError, k: nat)
    requires k < |turns| == |responses|
    requires forall j :: 0 <= j < k ==> turns[j].outcome == Ok(false)
    requires turns[k].outcome == Ok(true)
    ensures Settle(turns, responses, log, exhausted) == Exchange(log + Appended(turns[..k]) + turns[k].appended, Ok(responses[k].content))
  {
    if k > 0 {
      var t := turns[0];
      forall j | 0 <= j < k - 1
        ensures turns[1..][j].outcome == Ok(false)
      {
        assert turns[1..][j] == turns[j + 1];
      }
      SettleProgress(turns[1..], responses[1..], log + t.appended, exhausted, k - 1);
      assert turns[..k][0] == t && turns[..k][1..] == turns[1..][..k - 1];
      var rest := Appended(turns[1..][..k - 1]);
      assert Appended(turns[..k]) == t.appended + rest;
      assert (log + t.appended) + rest == log + (t.appended + rest);
    } else {
      assert turns[..0] == [] && log + [] == log;
    }
  }

  /** Whatever way a run ends, the log it started from is an unchanged prefix of the log it leaves. */
  lemma {:induction false} SettleExtends(turns: seq<TurnEffect>, responses: seq<Response>, log: seq<Message>, exhausted: ClientError)
    requires |turns| == |responses|
    ensures |log| <= |Settle(turns, responses, log, exhausted).log| && Settle(turns, responses, log, exhausted).log[..|log|] == log
  {
    if turns != [] && turns[0].outcome == Ok(false) {
      SettleExtends(turns[1..], responses[1..], log + turns[0].appended, exhausted);
      var x := Settle(turns, responses, log, exhausted);
      assert x.log[..|log + turns[0].appended|][..|log|] == x.log[..|log|];
    }
  }

  /**
   * What a turn that finds no response left raises: it still builds the
   * descriptors first, so a refused annotation raises before the missing
   * response matters.
   */
  function Exhausted(built: Result<(seq<Tool>, map<string, Func>), SchemaError>): (e: ClientError)
    ensures built.Err? ==> e == SchemaFailure(built.error)
    ensures built.Ok? ==> e == NoMoreResponses
  {
    if built.Err? then SchemaFailure(built.error) else NoMoreResponses
  }

  /**
   * The loop of `send_message`, from the log it starts with: turns run on
   * the responses in order until one is a text reply, whose content is
   * returned; an exception ends the conversation with what was logged so far.
   */
  function Converse(built: Result<(seq<Tool>, map<string, Func>), SchemaError>, log: seq<Message>, responses: seq<Response>, host: Host): (x: Exchange)
    ensures |log| <= |x.log| && x.log[..|log|] == log
  {
    SettleExtends(Turns(built, responses, host), responses, log, Exhausted(built));
    Settle(Turns(built, responses, host), responses, log, Exhausted(built))
  }

  /** A turn that is done answered a response without tool calls by logging its text; a turn that goes on answered tool calls. */
  predicate Answers(t: TurnEffect, response: Response) {
    (t.outcome == Ok(true) ==> response.toolCalls == [] && t.appended == [AssistantMessage(response.content)])
    && (t.outcome == Ok(false) ==> response.toolCalls != [])
  }

  /** A run of such turns that ends well ends at the first response without tool calls, with that response's text last in the log. */
  lemma {:induction false} SettleReply(turns: seq<TurnEffect>, responses: seq<Response>, log: seq<Message>, exhausted: ClientError)
    requires |turns| == |responses| && Settle(turns, responses, log, exhausted).outcome.Ok?
    requires forall j :: 0 <= j < |turns| ==> Answers(turns[j], responses[j])
    ensures var x := Settle(turns, responses, log, exhausted);
            exists k :: 0 <= k < |responses| && responses[k].toolCalls == [] && x.outcome == Ok(responses[k].content)
                        && (forall j :: 0 <= j < k ==> responses[j].toolCalls != [])
                        && |x.log| > |log| && x.log[..|log|] == log
                        && x.log[|x.log| - 1] == AssistantMessage(responses[k].content)
  {
    var k := SettleOk(turns, responses, log, exhausted);
    assert Answers(turns[k], responses[k]);
    forall j | 0 <= j < k
      ensures responses[j].toolCalls != []
    {
      assert Answers(turns[j], responses[j]);
    }
    var x := Settle(turns, responses, log, exhausted);
    assert x.log == (log + Appended(turns[..k])) + [AssistantMessage(responses[k].content)];
  }

  /**
   * A conversation that ends well returns the content of the first response
   * without tool calls, every earlier response had some, and the last
   * message logged is the assistant message carrying that content, after
   * the log it started from.
   */
  lemma ConverseReply(built: Result<(seq<Tool>, map<string, Func>), SchemaError>, log: seq<Message>, responses: seq<Response>, host: Host)
    requires Converse(built, log, responses, host).outcome.Ok?
    ensures var x := Converse(built, log, responses, host);
            exists k :: 0 <= k < |responses| && responses[k].toolCalls == [] && x.outcome == Ok(responses[k].content)
                        && (forall j :: 0 <= j < k ==> responses[j].toolCalls != [])
                        && |x.log| > |log| && x.log[..|log|] == log
                        && x.log[|x.log| - 1] == AssistantMessage(responses[k].content)
  {
    var ts := Turns(built, responses, host);
    forall j | 0 <= j < |ts|
      ensures Answers(ts[j], responses[j])
    {
      TurnsAnswer(built, responses, host, j);
    }
    SettleReply(ts, responses, log, Exhausted(built));
  }

  /**
   * Progress: when the descriptors build, `k` is the first response without
   * tool calls, and every call of the responses before it succeeds, the
   * conversation returns the content of response `k`, with its assistant
   * message last in the log.
   */
  lemma ConverseProgress(built: Result<(seq<Tool>, map<string, Func>), SchemaError>, log: seq<Message>, responses: seq<Response>, host: Host, k: nat)
    requires built.Ok? && k < |responses| && responses[k].toolCalls == []
    requires forall j :: 0 <= j < k ==> responses[j].toolCalls != []
    requires forall j, i :: 0 <= j < k && 0 <= i < |responses[j].toolCalls| ==> CallStep(built.value.1, responses[j].toolCalls[i], host).Ok?
    ensures var x := Converse(built, log, responses, host);
            x.outcome == Ok(responses[k].content) && x.log != [] && x.log[|x.log| - 1] == AssistantMessage(responses[k].content)
  {
    var ts := Turns(built, responses, host);
    forall j | 0 <= j < k
      ensures ts[j].outcome == Ok(false)
    {
      TurnsAt(built, responses, host, j);
      DispatchAllOk(built.value.1, responses[j].toolCalls, host);
    }
    TurnsAt(built, responses, host, k);
    SettleProgress(ts, responses, log, Exhausted(built), k);
  }

  /** The role `send_message` evidently means to log: the caller's, and `add_message`'s default `'user'` when it gives none. */
  function UserRole(role: Option<string>): (r: Option<string>)
    ensures r.Some?
    ensures role.Some? ==> r == role
    ensures role.None? ==> r == Some("user")
  {
    if role.Some? then role else Some("user")
  }

  /** The messages `send_message` logs before its first turn, under role `logged`: the user message, only when the content is truthy. */
  function UserEntry(content: Option<string>, logged: Option<string>): (ms: seq<Message>)
    ensures |ms| <= 1
    ensures ms != [] <==> content.Some? && content.value != ""
    ensures ms != [] ==> ms[0] == UserMessage(content.value, logged)
  {
    if content.Some? && content.value != "" then [UserMessage(content.value, logged)] else []
  }

  /** The functions a conversation offers: the caller's, or the client's own when the caller gives none or an empty list. */
  function ActiveFunctions(functions: Option<seq<Func>>, defaults: seq<Func>): (active: seq<Func>)
    ensures functions.Some? && functions.value != [] ==> active == functions.value
    ensures functions.None? || functions.value == [] ==> active == defaults
  {
    if functions.None? || functions.value == [] then defaults else functions.value
  }

  /** `force_function`: a tool name, or a callable whose name is meant. */
  datatype ForceArg = ByName(name: string) | ByCallable(callable: Func)

  /** The normalisation of `force_function` as written: `isinstance` is given `callable`, which is not a type, so it raises for every argument. */
  function ForceNameAsWritten(force: Option<ForceArg>): Result<Option<string>, ClientError> {
    Err(NotAType)
  }

  /** The normalisation evidently meant: a callable stands for its `__name__`, a name for itself. */
  function ForceName(force: Option<ForceArg>): (r: Option<string>)
    ensures r.Some? <==> force.Some?
    ensures force.Some? && force.value.ByCallable? ==> r == Some(force.value.callable.name)
    ensures force.Some? && force.value.ByName? ==> r == Some(force.value.name)
  {
    match force
    case None => None
    case Some(ByName(n)) => Some(n)
    case Some(ByCallable(f)) => Some(f.name)
  }

  /**
   * `send_message` as written, from the log it starts with: the user
   * message is logged under the caller's role, `None` by default, and then
   * the check on `force_function` runs before any turn.
   */
  function SentAsWritten(log: seq<Message>, content: Option<string>, role: Option<string>, functions: Option<seq<Func>>,
                         defaults: seq<Func>, force: Option<ForceArg>, responses: seq<Response>, host: Host): Exchange
  {
    var logged := log + UserEntry(content, role);
    match ForceNameAsWritten(force)
    case Err(e) => Exchange(logged, Err(e))
    case Ok(name) => Converse(FuncsToTools(ActiveFunctions(functions, defaults)), logged, responses, host)
  }

  /** As written, every call of `send_message` raises `TypeError` after logging the user message, and no turn runs. */
  lemma SentAsWrittenRaises(log: seq<Message>, content: Option<string>, role: Option<string>, functions: Option<seq<Func>>,
                            defaults: seq<Func>, force: Option<ForceArg>, responses: seq<Response>, host: Host)
    ensures SentAsWritten(log, content, role, functions, defaults, force, responses, host) == Exchange(log + UserEntry(content, role), Err(NotAType))
  {
  }

  /**
   * `send_message("hi")` on a client with no functions, answered by a text
   * reply: as written it logs the message with role `None` and raises
   * `TypeError`; as intended it logs the message as the user's and returns
   * the reply.
   */
  lemma SendHiContrast(log: seq<Message>, host: Host)
    ensures var responses := [Response(Some("ok"), [])];
            && SentAsWritten(log, Some("hi"), None, None, [], None, responses, host)
               == Exchange(log + [UserMessage("hi", None)], Err(NotAType))
            && Converse(FuncsToTools(ActiveFunctions(None, [])), log + UserEntry(Some("hi"), UserRole(None)), responses, host)
               == Exchange(log + [UserMessage("hi", Some("user")), AssistantMessage(Some("ok"))], Ok(Some("ok")))
  {
    var responses := [Response(Some("ok"), [])];
    var start := log + [UserMessage("hi", Some("user"))];
    assert FuncsToTools([]) == Ok(([], map[]));
    assert Turns(Ok(([], map[])), responses, host) == [TurnEffect([AssistantMessage(Some("ok"))], Ok(true))];
    assert start + [AssistantMessage(Some("ok"))] == log + [UserMessage("hi", Some("user")), AssistantMessage(Some("ok"))];
  }

  /** The client: a model name, the functions it offers by default, and the conversation log. */
  class FunctionClient {
    var messages: seq<Message>
    const model: string
    const functions: seq<Func>

    /** `messages or []`: a missing or empty log starts empty. */
    constructor (model: string, functions: seq<Func>, messages: Option<seq<Message>>)
      ensures this.model == model && this.functions == functions
      ensures this.messages == if messages.Some? then messages.value else []
    {
      this.model := model;
      this.functions := functions;
      this.messages := if messages.Some? then messages.value else [];
    }

    /** `add_message`: logs one message with the given role, `'user'` unless said otherwise. */
    method AddMessage(content: string, role: Option<string> := Some("user"))
      modifies this
      ensures messages == old(messages) + [UserMessage(content, role)]
    {
      messages := messages + [UserMessage(content, role)];
    }

    /**
     * The tool-call loop of `internal_send_message`: answers the calls in
     * order, logging one function message per call, and stops at the first
     * call that raises.
     */
    method AnswerCalls(toolsMap: map<string, Func>, calls: seq<Call>, host: Host) returns (failure: Option<ClientError>)
      modifies this
      ensures messages == old(messages) + Dispatch(toolsMap, calls, host).0
      ensures failure == Dispatch(toolsMap, calls, host).1
    {
      failure := None;
      for i := 0 to |calls|
        invariant failure.None?
        invariant Dispatch(toolsMap, calls[..i], host).1.None?
        invariant messages == old(messages) + Dispatch(toolsMap, calls[..i], host).0
      {
        var call := calls[i];
        assert calls[..i + 1][..i] == calls[..i] && calls[..i + 1][i] == call;
        if !host.decodes(call.arguments) {
          failure := Some(MalformedArguments(call.id));
        } else if call.name !in toolsMap {
          failure := Some(UnknownTool(call.name));
        } else {
          var result := host.invoke(toolsMap[call.name], call.arguments);
          if result.Err? {
            failure := Some(ToolRaised(call.name, result.error));
          } else {
            messages := messages + [FunctionMessage(call, result.value)];
          }
        }
        if failure.Some? {
          DispatchStops(toolsMap, calls, host, i + 1);
          return;
        }
      }
      assert calls[..|calls|] == calls;
    }

    /**
     * `internal_send_message`, given the response the service returns: the
     * log grows by exactly what `Turn` says, and the result is whether the
     * conversation is done. The forced tool name has no effect: the request
     * that would carry it is never sent.
     */
    method InternalSendMessage(functions: seq<Func>, forceFunction: Option<string>, response: Response, host: Host)
      returns (done: Result<bool, ClientError>)
      modifies this
      ensures messages == old(messages) + Turn(FuncsToTools(functions), response, host).appended
      ensures done == Turn(FuncsToTools(functions), response, host).outcome
    {
      var built := FuncsToTools(functions);
      if built.Err? {
        return Err(SchemaFailure(built.error));
      }
      var toolsMap := built.value.1;
      if response.toolCalls != [] {
        var failure := AnswerCalls(toolsMap, response.toolCalls, host);
        if failure.Some? {
          return Err(failure.value);
        }
        return Ok(false);
      } else {
        messages := messages + [AssistantMessage(response.content)];
        return Ok(true);
      }
    }

    /**
     * One pass of the loop of `send_message`: the turn on response `i`, seen
     * as a step of the run of turns that starts there.
     */
    method TakeTurn(active: seq<Func>, force: Option<string>, responses: seq<Response>, host: Host, i: nat,
                    ghost built: Result<(seq<Tool>, map<string, Func>), SchemaError>, ghost turns: seq<TurnEffect>)
      returns (turn: Result<bool, ClientError>)
      requires i < |responses| && built == FuncsToTools(active) && turns == Turns(built, responses, host)
      modifies this
      ensures var exhausted := Exhausted(built);
              var x := Settle(turns[i..], responses[i..], old(messages), exhausted);
              (turn == Ok(false) ==> x == Settle(turns[i + 1..], responses[i + 1..], messages, exhausted))
              && (turn.Err? ==> x == Exchange(messages, Err(turn.error)))
              && (turn == Ok(true) ==> x == Exchange(messages, Ok(responses[i].content))
                                       && messages != [] && messages[|messages| - 1].content == responses[i].content)
    {
      SettleAt(turns, responses, i, messages, Exhausted(built));
      TurnsAt(built, responses, host, i);
      turn := InternalSendMessage(active, force, responses[i], host);
    }

    /** A turn that finds no response left: it still builds the descriptors before it asks for one. */
    method RunOut(active: seq<Func>) returns (failure: ClientError)
      ensures failure == Exhausted(FuncsToTools(active))
    {
      var built := FuncsToTools(active);
      if built.Err? {
        return SchemaFailure(built.error);
      }
      return NoMoreResponses;
    }

    /**
     * The loop of `send_message`: the first turn is given the forced name,
     * the later ones are not; turns run until one reports that the
     * conversation is done, and the reply is the content of the last logged
     * message.
     */
    method RunTurns(active: seq<Func>, force: Option<string>, responses: seq<Response>, host: Host)
      returns (reply: Result<Option<string>, ClientError>)
      modifies this
      ensures var x := Converse(FuncsToTools(active), old(messages), responses, host);
              messages == x.log && reply == x.outcome
    {
      ghost var built := FuncsToTools(active);
      ghost var turns := Turns(built, responses, host);
      ghost var exhausted := Exhausted(built);
      ghost var goal := Settle(turns, responses, messages, exhausted);
      var done := false;
      var i := 0;
      while !done
        invariant 0 <= i <= |responses|
        invariant !done ==> Settle(turns[i..], responses[i..], messages, exhausted) == goal
        invariant done ==> 0 < i && goal == Exchange(messages, Ok(responses[i - 1].content))
                           && messages != [] && messages[|messages| - 1].content == responses[i - 1].content
        decreases |responses| - i
      {
        if i == |responses| {
          assert turns[i..] == [];
          var failure := RunOut(active);
          return Err(failure);
        }
        var turn := TakeTurn(active, if i == 0 then force else None, responses, host, i, built, turns);
        if turn.Err? {
          return Err(turn.error);
        }
        done := turn.value;
        i := i + 1;
      }
      return Ok(messages[|messages| - 1].content);
    }

    /**
     * `send_message`, given the responses of its turns in order: logs the
     * user message when there is content, then runs the turns on the
     * caller's functions, or on the client's own when the caller gives none.
     */
    method SendMessage(content: Option<string>, role: Option<string>, functions: Option<seq<Func>>,
                       forceFunction: Option<ForceArg>, responses: seq<Response>, host: Host)
      returns (reply: Result<Option<string>, ClientError>)
      modifies this
      ensures var x := Converse(FuncsToTools(ActiveFunctions(functions, this.functions)), old(messages) + UserEntry(content, UserRole(role)), responses, host);
              messages == x.log && reply == x.outcome
    {
      if content.Some? && content.value != "" {
        AddMessage(content.value, UserRole(role));
      }
      assert messages == old(messages) + UserEntry(content, UserRole(role));
      var active := ActiveFunctions(functions, this.functions);
      reply := RunTurns(active, ForceName(forceFunction), responses, host);
    }

    /**
     * `send_message` as written: the user message is logged under the
     * caller's role, then the check on `force_function` raises before the
     * first turn.
     */
    method SendMessageAsWritten(content: Option<string>, role: Option<string>, functions: Option<seq<Func>>,
                                forceFunction: Option<ForceArg>, responses: seq<Response>, host: Host)
      returns (reply: Result<Option<string>, ClientError>)
      modifies this
      ensures var x := SentAsWritten(old(messages), content, role, functions, this.functions, forceFunction, responses, host);
              messages == x.log && reply == x.outcome
    {
      if content.Some? && content.value != "" {
        AddMessage(content.value, role);
      }
      var force := ForceNameAsWritten(forceFunction);
      // The check raises for every argument, so the loop after it is never reached.
      reply := Err(force.error);
    }
  }
}
