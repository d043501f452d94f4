# llmfunctionclient in Dafny

A model of `llmfunctionclient/main.py`, a small client that offers Python
functions as tools to a chat-completion model. The model gets a
tool descriptor for each function, asks for some of them to be called, and
finally replies in text. The model covers the two halves of the client.

- **Tool descriptors.** `parse_description` reads a function's doc comment.
  It yields a one-line summary and a description per parameter
  (`docstring.dfy`, over the Python string operations in `text.dfy`).
  `map_type`, `map_enum`, `to_tool` and `funcs_to_tools` then turn the
  function's name, doc comment and annotated signature into a JSON-schema
  descriptor. They also build a name-to-function map (`schema.dfy`).
- **The conversation loop.** `FunctionClient` is a class whose `messages`
  log grows by appending (`client.dfy`). `internal_send_message` is one
  turn. It builds the descriptors, then handles the model's response. If
  the response has tool calls, it decodes, looks up and calls each one in
  order, logging one function message per call. Otherwise it logs the
  assistant's text. `send_message` logs the user's message. It then checks
  `force_function` (main.py:114), and as written that check raises
  `TypeError` for every argument, `None` included, so no turn ever runs.
  The loop after the check (main.py:116-120) is meant to run turns until
  one is a text reply and to return the content of the last logged
  message. `SendMessageAsWritten` models the method as it stands.
  `SendMessage` models the evident intent (see "## Findings"), and the
  loop is modelled on that path.

Each imperative operation is a method proved against a specification
function:

- `ParseDescription` against `Describe`;
- `ToTool` against `ToolSpec`;
- `AnswerCalls` against `Dispatch`;
- `InternalSendMessage` against `Turn`;
- `SendMessage` against `Converse`;
- `SendMessageAsWritten` against `SentAsWritten`.

The lemmas then state what the source promises about those functions:

- the regular expression's match and its converse;
- the last line describing a parameter wins;
- descriptors in signature order, with an error for the first refused
  annotation;
- the `required` list as an ordered subsequence of the parameters;
- the first raising call stops a turn, keeping what was logged before it;
- a successful conversation ends at the first response without tool calls,
  having appended to the log it started with.

The completion service is not modelled. A turn is handed the response the
service returns, and a conversation is handed the responses of its turns,
in order. Decoding JSON arguments and calling a Python function are
foreign to the model. They are supplied by a `Host` value: whether the
arguments decode, and what the call returns or raises.

Two points about the code shape the model:

- **No turn budget.** The loop of `send_message` has no bound. Here a
  conversation ends when the supplied responses run out
  (`NoMoreResponses`). A turn still builds its descriptors before it needs
  a response, so a refused annotation raises `ValueError` even then.
- **The forced tool is never sent.** `internal_send_message` builds a
  `tool_choice` argument but never passes it to `create`. On the intended
  path of `send_message`, the forced name is therefore accepted and has no
  effect.

## Model

| member | source | states |
|---|---|---|
| Text.TrimLeftSpec | llmfunctionclient/main.py:11 | `str.lstrip` removes exactly the leading whitespace: what is left is a suffix not starting with whitespace, after whitespace only |
| Text.TrimRightSpec | llmfunctionclient/main.py:11 | `str.rstrip` removes exactly the trailing whitespace: what is left is a prefix not ending with whitespace, before whitespace only |
| Text.StripSpec | llmfunctionclient/main.py:11 | `str.strip` yields the infix of the string with whitespace only around it, neither starting nor ending with whitespace |
| Text.StripExactly | llmfunctionclient/main.py:14 | conversely, whitespace around a core that neither starts nor ends with whitespace strips to exactly that core |
| Text.StripIdempotent | llmfunctionclient/main.py:23 | stripping an already stripped text changes nothing |
| Text.StripUnchanged | llmfunctionclient/main.py:23 | a text with no whitespace at either end strips to itself |
| Text.StripBlank | llmfunctionclient/main.py:11 | a whitespace-only text strips to the empty string |
| Text.StripKeeps | llmfunctionclient/main.py:11-14 | stripping never introduces a character, so a stripped line holds no newline |
| Text.TrimLeftSpaces | llmfunctionclient/main.py:20 | leading whitespace before a non-space is exactly what `lstrip` (and the pattern's `\s*`) consumes |
| Text.TrimRightSpaces | llmfunctionclient/main.py:23 | trailing whitespace after a non-space is exactly what `rstrip` removes |
| Text.Split | llmfunctionclient/main.py:11 | `split('\n')` yields at least one piece and no piece holds the separator |
| Text.JoinSplit | llmfunctionclient/main.py:11 | joining the pieces of a split with the separator gives the text back |
| Text.SplitJoin | llmfunctionclient/main.py:11 | splitting a join of separator-free pieces gives the pieces back |
| Text.SplitWithout | llmfunctionclient/main.py:11 | a text without the separator splits into itself alone |
| Text.SplitAtFirst | llmfunctionclient/main.py:11 | a split cuts at the first separator and continues on the rest |
| Docstring.MatchLine | llmfunctionclient/main.py:20-23 | a matched line yields a non-empty name of word characters and a text that is already stripped |
| Docstring.WordRunSpec | llmfunctionclient/main.py:20 | the `(\w+)` group is greedy: it takes word characters only, and stops at the end or at a non-word character |
| Docstring.WordRunExactly | llmfunctionclient/main.py:20 | a run of word characters ended by a non-word character is exactly what the group takes |
| Docstring.MatchLineSound | llmfunctionclient/main.py:20-23 | when a line matches, the pattern holds there: leading whitespace, the name as a word run, a colon, and the stripped rest as the text |
| Docstring.MatchLineComplete | llmfunctionclient/main.py:20-23 | every line of the form whitespace, word run, colon, rest matches, with that name and the stripped rest |
| Docstring.CollectKeys | llmfunctionclient/main.py:17-23 | a name is a key of the description map exactly when some match names it |
| Docstring.CollectLastWins | llmfunctionclient/main.py:23 | a name's description is the text of the last match naming it |
| Docstring.Describe | llmfunctionclient/main.py:7-25 | the description of an absent doc comment is empty; a summary never holds a newline and has no whitespace at either end |
| Docstring.ParseDescription | llmfunctionclient/main.py:7-25 | the loop computes `Describe`: an absent or empty doc gives an empty summary and no descriptions; the summary is the first line stripped and holds no newline |
| Docstring.DescribedParams | llmfunctionclient/main.py:18-23 | a parameter is described exactly when a line after the first matches with its name; the first line never contributes |
| Docstring.DescribedLast | llmfunctionclient/main.py:23 | the description of a parameter is the text of the last line after the first that names it |
| Docstring.BlankDoc | llmfunctionclient/main.py:8-14 | a whitespace-only doc comment gives an empty summary and no descriptions |
| Schema.MapType | llmfunctionclient/main.py:28-34 | `str` subclasses (string enumerations included) map to string; `int`, `bool` and integer enumerations to integer; a plain `Enum`, a missing annotation and any other class raise `ValueError` |
| Schema.MapEnum | llmfunctionclient/main.py:36-39 | for an enumeration, exactly the names that iterating the class yields (canonical members in definition order, aliases left out); nothing otherwise |
| Schema.PropertyOf | llmfunctionclient/main.py:45-53 | a property exists exactly when the type maps; it has that type, an `enum` key exactly for a non-empty string or integer enumeration, and a `description` key exactly when the doc comment described the parameter |
| Schema.PropertiesOf | llmfunctionclient/main.py:44-53 | all properties exist exactly when every annotation maps; entry `i` is parameter `i`'s name and property; otherwise the error is that of the first refused parameter |
| Schema.RequiredNames | llmfunctionclient/main.py:61 | `required` holds exactly the names of parameters without default, in signature order (a subsequence of the parameter names) |
| Schema.RequiredNamesAt | llmfunctionclient/main.py:61 | `required` lists the names at increasing positions that are exactly the parameters without default, which fixes the list even when two parameters share a name |
| Schema.ToolSpec | llmfunctionclient/main.py:41-67 | a descriptor exists exactly when every annotation maps; it carries the function's name, one property per parameter in order, the required names, and a top-level description exactly when the summary is non-empty |
| Schema.PropertiesFirstError | llmfunctionclient/main.py:44-45 | a refused annotation after supported ones only is the error of the whole parameter list |
| Schema.ToTool | llmfunctionclient/main.py:41-67 | the loop over the signature and the descriptor it builds compute `ToolSpec`, including its error |
| Schema.ToolsOf | llmfunctionclient/main.py:78 | the descriptor list exists exactly when every function has a descriptor; entry `i` is function `i`'s; otherwise the error is that of the first refused function |
| Schema.Registry | llmfunctionclient/main.py:78 | every function is reachable under its name, and only function names are keys |
| Schema.RegistryLastWins | llmfunctionclient/main.py:78 | of several functions with one name, the last in the list is kept |
| Schema.FuncsToTools | llmfunctionclient/main.py:77-78 | the pair of descriptor list and name map, or the error of the first refused function |
| Client.CallStep | llmfunctionclient/main.py:100-103 | a call succeeds exactly when its arguments decode, its name is offered and the function returns; it then logs a function message under the call's id and name with the result; bad arguments, unknown names and a raising tool each raise the matching error, the last carrying the tool's own error |
| Client.Dispatch | llmfunctionclient/main.py:98-104 | the messages logged are the results of the calls in order; with no error every call is logged; an error is that of the first call not logged |
| Client.DispatchFailsAt | llmfunctionclient/main.py:99-104 | the first raising call stops the loop with its error, after exactly the calls before it |
| Client.Turn | llmfunctionclient/main.py:83-107 | a schema error logs nothing; a turn is done exactly when the descriptors build and the response has no tool calls, and then logs one assistant message; with tool calls it logs what the tool-call loop logs, goes on exactly when no call raised, and otherwise raises the first raising call's error |
| Client.DispatchAllOk | llmfunctionclient/main.py:98-104 | when every call succeeds, the loop logs one message per call and raises nothing |
| Client.TurnUnknownTool | llmfunctionclient/main.py:101 | a call naming a function not offered raises `KeyError` after the earlier calls are logged |
| Client.Converse | llmfunctionclient/main.py:116-120 | the loop of `send_message` only appends: the log it starts from is a prefix of the log it leaves |
| Client.Exhausted | llmfunctionclient/main.py:84-96 | a turn with no response left raises the schema error when the descriptors do not build, and `NoMoreResponses` otherwise |
| Client.SettleProgress | llmfunctionclient/main.py:116-120 | turns that go on up to a done turn end the run there, with that response's content and everything logged before it |
| Client.ConverseProgress | llmfunctionclient/main.py:116-120 | when the descriptors build and every call before the first response without calls succeeds, the conversation returns that response's content, with its assistant message last in the log |
| Client.SettleOk | llmfunctionclient/main.py:116-119 | a run of turns that ends well ends at its first done turn, after turns that all went on, with everything they appended logged in order |
| Client.SettleExtends | llmfunctionclient/main.py:116-120 | whatever way a run ends, the log it started from is an unchanged prefix of the final log |
| Client.SettleReply | llmfunctionclient/main.py:116-120 | a run of turns that answer their responses ends well at the first response without tool calls, with its assistant message last in the log |
| Client.ConverseReply | llmfunctionclient/main.py:116-120 | a conversation that ends well returns the content of the first response without tool calls; every earlier response had calls; the last message logged is that assistant message, after the initial log |
| Client.UserRole | llmfunctionclient/main.py:109-111 | the role logged for the user message is the caller's, and `'user'` when none is given |
| Client.UserEntry | llmfunctionclient/main.py:110-111 | `send_message` logs one user message, under the role it is given, exactly when the content is non-empty |
| Client.ActiveFunctions | llmfunctionclient/main.py:112-113 | the caller's functions when given and non-empty, otherwise the client's own |
| Client.ForceName | llmfunctionclient/main.py:114-115 | a callable stands for its name, a name for itself, and no directive stays none |
| Client.SentAsWrittenRaises | llmfunctionclient/main.py:109-115 | as written, every call of `send_message` logs the user entry under the caller's role and then raises `TypeError`, with no turn taken |
| Client.SendHiContrast | llmfunctionclient/main.py:109-120 | on `send_message("hi")` answered by a text reply, the code as written logs role `None` and raises, while the intended behaviour logs role `'user'` and returns the reply |
| Client.FunctionClient.constructor | llmfunctionclient/main.py:70-74 | the log starts as the given messages, or empty when none are given |
| Client.FunctionClient.AddMessage | llmfunctionclient/main.py:80-81 | appends exactly one message with the given role (`'user'` by default) and content |
| Client.FunctionClient.AnswerCalls | llmfunctionclient/main.py:98-104 | the loop appends exactly the messages of `Dispatch` and reports its error |
| Client.FunctionClient.InternalSendMessage | llmfunctionclient/main.py:83-107 | the log grows by exactly what `Turn` appends, and the result is `Turn`'s outcome |
| Client.FunctionClient.TakeTurn | llmfunctionclient/main.py:117-119 | one turn is one step of the run that starts at it: a turn that goes on leaves the rest of the run to the later responses; any other turn ends it |
| Client.FunctionClient.RunOut | llmfunctionclient/main.py:84 | a turn with no response left still builds the descriptors, so it raises what `Exhausted` says |
| Client.FunctionClient.RunTurns | llmfunctionclient/main.py:116-120 | the loop's final log and returned content, or the exception that escapes, are those of `Converse` |
| Client.FunctionClient.SendMessage | llmfunctionclient/main.py:109-120 | the intended behaviour: logs the user entry under the corrected role, then runs turns on the caller's functions or the client's own; the final log and the result are those of `Converse` |
| Client.FunctionClient.SendMessageAsWritten | llmfunctionclient/main.py:109-115 | the code as written: logs the user entry under the caller's role, then raises `TypeError`; the log and result are those of `SentAsWritten` |

## Left out

- The completion request (main.py:85-96) is not modelled. A turn receives the response the service returns, and a conversation receives the responses of its turns. `model`, the `tools` list and the message snapshot are therefore never sent.
- `response.choices[0]` is assumed to exist. An empty `choices` list would raise, and that case is not modelled.
- The `tool_choice` argument is built (main.py:90-91) but never sent. On the intended path, the forced name is accepted and has no effect.
- Decoding the JSON arguments and calling the function with `**args` (main.py:100-101) are foreign. A `Host` value supplies both. A call's result is a string here; a non-string result would be logged as it is.
- The `print` of each call (main.py:102) is output only and is not modelled.
- The reflection with `inspect.signature` and `__doc__` is replaced by an explicit `Func` value: name, doc comment, and parameters with annotation and default flag.
- Schema.RegistryLastWins: a `Func` has no identity beyond its name, doc comment and parameters. Two different Python functions that agree on all three are the same value here, and `Host.invoke` gives them the same result, so for them the model cannot show which one the name map keeps.
- Annotations that are not classes (such as generic aliases or string annotations) make `issubclass` raise `TypeError`. They are not modelled; `Str` and `Int` also stand for any non-enumeration subclass of `str` or `int`, which maps the same way; `Other` stands for a class that subclasses neither.
- Docstring.MatchLineSound, Docstring.MatchLineComplete, Docstring.MatchLine: `\w` is taken to be ASCII letters, digits and the underscore. Python's Unicode word class is wider, so a line such as `größe: x` matches in Python and not here.
- Client.FunctionClient.constructor: the caller's list becomes the log by value. The aliasing of a caller's list, which Python would mutate in place, is not modelled.
- Client.FunctionClient.SendMessage: the loop has no bound in the source. Running out of supplied responses ends the model's conversation with `NoMoreResponses`, which has no counterpart in the source. That turn first builds the descriptors, as main.py:84 does, so a refused annotation still raises its `ValueError` (`Client.Exhausted`).
- Client.FunctionClient.SendMessage: this models the intended behaviour, not the code as written. It sets aside the `TypeError` that main.py:114 raises on every call and treats `force_function` as a name that has no effect. It also logs the user message under `UserRole(role)`, which is `'user'` when no role is given, where main.py:111 logs `None`. `SendMessageAsWritten` models the code as written.
- Client.UserEntry: on the intended path it is given the corrected role `UserRole(role)`, not the `None` that main.py:111 passes. The as-written path gives it the caller's role unchanged.
- The `client` attribute is not kept, because the service it stands for is not modelled.

## Findings

| source | as written | input that shows it | evidently intended | confidence | as-written member | corrected member |
|---|---|---|---|---|---|---|
| llmfunctionclient/main.py:114 | `isinstance(force_function, callable)` passes the builtin `callable`, which is not a type, so the check raises `TypeError` for every argument, `None` included | `send_message("hi")` raises `TypeError` after logging the user message, before the first turn | `callable(force_function)`: a callable stands for its `__name__` | high, not executed | Client.SentAsWrittenRaises | Client.ForceName |
| llmfunctionclient/main.py:109-111 | `send_message` defaults `role` to `None` and passes it to `add_message`, overriding that method's `'user'` default | `send_message("hi")` logs `{'role': None, 'content': 'hi'}` | the message is logged with role `'user'` | medium, not executed | Client.SendHiContrast | Client.UserRole |
