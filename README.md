# simplemind core, modelled in Dafny

simplemind is a thin Python client around vendor LLM SDKs. This project models the parts of it that hold logic of their own, and proves properties of that model:

- **Tool calling.** `BaseTool.from_function` turns a Python function's parameter descriptors into a tool schema (`properties`, `required`, a Literal's `enum`) over the closed type vocabulary `string`/`integer`/`boolean`. `AnthropicTool.handle` runs the registered function for matching `tool_use` blocks of a vendor response and appends an assistant message and a `tool_result` user message to the caller's message list. `Anthropic.send_conversation` makes one request, then one more after each tool that ran.
- **Provider lookup.** `find_provider` is a case-insensitive first-match search of the provider registry.
- **Conversation histories.** These are the three append-only message lists of `conversation.py`, `core/models.py` and `models/base.py`. The send cycle of `conversation.py` runs around a client oracle.
- **OpenAI adapter rules.** These cover the API-key fallback, the login sequence, the connection test, the model-name sanitisation and the mapping of failures onto `ProviderError`.
- **Plugins and chains.** The plugin `Context`, the enabled flag, the memory and key-value plugins, and the text-reversal chain.

There is one Dafny module per source file:

| file | module | source |
|---|---|---|
| `wrappers.dfy` | `Wrappers` | `Option`, `Result`, `Outcome`, and the left-to-right `MapAll` behind list comprehensions |
| `python.dfy` | `Python` | values, exceptions, truthiness, `x or default`, `lower`, `strip`, `str(int)`, duplicate keyword arguments |
| `base_tools.dfy` | `BaseTools` | simplemind/providers/_base_tools.py |
| `base_provider.dfy` | `BaseProvider` | simplemind/providers/_base.py |
| `anthropic.dfy` | `Anthropic` | simplemind/providers/anthropic.py |
| `utils.dfy` | `Utils` | simplemind/utils.py |
| `conversation.dfy` | `ClientConversation` | simplemind/conversation.py |
| `core_models.dfy` | `CoreModels` | simplemind/core/models.py |
| `models_base.dfy` | `ModelsBase` | simplemind/models/base.py |
| `openai.dfy` | `OpenAI` | simplemind/providers/openai.py |
| `plugins_base.dfy` | `PluginsBase` | simplemind/plugins/base.py |
| `basic_memory.dfy` | `BasicMemory` | simplemind/plugins/basic_memory.py |
| `kv.dfy` | `KV` | simplemind/plugins/kv.py |
| `concepts.dfy` | `Concepts` | simplemind/concepts.py |
| `reverse_text.dfy` | `ReverseText` | simplemind/chains/reverse_text.py |

Code that changes state in place becomes a class whose methods have `modifies` frames. This covers the tool's `tool_id`/`function_result`, the caller's message list that `handle` appends to, the conversation histories, the plugin fields and the Context's plugin dict. A loop that updates variables becomes a `while` loop. It is proved equal to a prefix-recursive specification function, and the properties are proved about that function. `find_provider`'s loop returns from inside, so it has no state to carry and `Utils.FindProvider` is recursive.

- `BaseTools.FromFunction` is proved against `ToolFrom`.
- `AnthropicTool.Handle` is proved against `Scan` and `HandleSpec`.
- `SendConversation` and `RunTools` are proved against `Send` and `ToolLoop`.

`get_response_schema`'s `assert self.is_executed` tests a bound method, so it never fails (see "## Findings"). The tool, its `handle` and `send_conversation` follow the code as written: a tool that no block asks for still passes `handle` and appends a tool_result with null id and content, and its turn sends no request. `HandleSpec` takes a `checked` flag so that the intended reading, where the assertion holds, is stated and proved beside it.

A Python exception is the `Failure` of a `Result`: its class and `str(e)`. Python introspection (`__annotations__`, `inspect.signature`, `__metadata__`) is the descriptor `FunctionInfo`. Its annotation list has distinct names because it comes from a dict. The vendor SDKs are oracles: functions from the request to the response or the exception raised. This covers `messages.create`, the instructor-patched client, `chat.completions.create`, `models.list`, `BaseOpenAI(...)` and the chat client of `conversation.py`. A registered tool function is an oracle from its keyword arguments to `str` of its result, or to the exception it raises.

## Model

| member | source | states |
|---|---|---|
| BaseTools.LiteralStrs | simplemind/providers/_base_tools.py:98 | A Literal's enum has one string per argument, `str(x)` of each, in order |
| BaseTools.ConvertType | simplemind/providers/_base_tools.py:53-62 | `str`→"string", `int`→"integer", `bool`→"boolean", and every Literal→"string" (each an iff); any other type raises TypeError "Field of type … is not supported" |
| BaseTools.FieldOf | simplemind/providers/_base_tools.py:79-93 | The Field comes from the Annotated metadata, else from the signature default. A parameter with neither raises ValueError "Please add a Field annotation to `func.param` parameter". A name missing from the signature raises KeyError |
| BaseTools.DescriptionOf | simplemind/providers/_base_tools.py:100-104 | The property's description is the Field's description. A non-Field object raises AttributeError, and a missing description raises a validation error |
| BaseTools.IsRequired | simplemind/providers/_base_tools.py:14-22 | A non-FieldInfo signature default means not required. Otherwise the parameter is required iff the Field's default is undefined |
| BaseTools.FromFunction | simplemind/providers/_base_tools.py:70-114 | The loop that fills `properties`, `required` and `enum_values` returns exactly `ToolFrom` |
| BaseTools.BuildFacts | simplemind/providers/_base_tools.py:78-106 | After n parameters: success iff each of them succeeds, else the first failing parameter's exception. `properties` has exactly the names seen so far, each with its own property; `required` is the in-order required names; `enum_values` is the most recent Literal's |
| BaseTools.BuildOutcome | simplemind/providers/_base_tools.py:78-95 | After n parameters the loop has not raised iff each of them succeeds, and otherwise it raises the first failing parameter's exception |
| BaseTools.BuildKeys | simplemind/providers/_base_tools.py:95-101 | After n successful parameters, `properties` has exactly the names seen so far |
| BaseTools.BuildValueAt | simplemind/providers/_base_tools.py:95-101 | Each parameter's property is the one built from it, so later parameters with other names do not overwrite it |
| BaseTools.FromFunctionFailsAtFirstBadParameter | simplemind/providers/_base_tools.py:78-95 | `from_function` succeeds iff every parameter does, and otherwise raises the first bad parameter's exception |
| BaseTools.FromFunctionBuildsSchema | simplemind/providers/_base_tools.py:78-114 | A built tool: name = function name and description = stripped docstring or "". There is one property per annotated name, with its converted type and carried enum, and `required` = the in-order required names |
| BaseTools.EntryTypeName | simplemind/providers/_base_tools.py:95-101 | A recorded property's type is `convert_type` of the parameter's type |
| BaseTools.RequiredNamesAreRequired | simplemind/providers/_base_tools.py:105-106 | A name is in `required` iff its parameter is one for which `_is_required` holds |
| BaseTools.EnumCarriesOver | simplemind/providers/_base_tools.py:97-104 | A Literal parameter's enum is its string values. Later non-Literal parameters carry that enum, because `enum_values` is never reset |
| BaseTools.NoEnumBeforeLiteral | simplemind/providers/_base_tools.py:75 | `enum_values` is None until the first Literal parameter |
| BaseTools.AnnotationOutsideSignatureFails | simplemind/providers/_base_tools.py:84-86 | An annotated name that is not a parameter (a `return` annotation) makes `from_function` fail |
| BaseTools.UnsupportedTypeFails | simplemind/providers/_base_tools.py:59-60 | One unsupported parameter type makes `from_function` build no tool |
| BaseTools.BadParameterFails | simplemind/providers/_base_tools.py:78-95 | A single parameter that cannot become a property makes `from_function` fail |
| BaseTools.PropertyDump | simplemind/providers/_base_tools.py:33-36 | A property dumps to its type and description, with "enum" present iff the enum is not None (`exclude_none`) |
| BaseTools.PropertiesSchema | simplemind/providers/_base_tools.py:64-68 | `get_properties_schema` keeps exactly the property names and maps each to its dump |
| BaseProvider.SupportsStreaming | simplemind/providers/_base.py:21 | The streaming flag is false unless the provider class overrides it |
| BaseProvider.SupportsStructuredResponses | simplemind/providers/_base.py:22 | The structured-responses flag is true unless the provider class overrides it |
| BaseProvider.SchemasOf | simplemind/providers/_base.py:63 | The comprehension succeeds iff every `from_function` does. Then it has the same length, and element i is `from_function(tools[i])`. Otherwise the first failure propagates |
| BaseProvider.MakeTools | simplemind/providers/_base.py:61-63 | No list for None, and the comprehension for a list |
| Anthropic.WireMessages | simplemind/providers/anthropic.py:107-110 | One wire message per conversation message, with the same (role, text), in order |
| Anthropic.MergeOptions | simplemind/providers/anthropic.py:122 | DEFAULT_KWARGS, then the caller's kwargs, then the tools entry, with later keys winning, so `max_tokens` is 1000 unless overridden |
| Anthropic.FirstText | simplemind/providers/anthropic.py:134 | `response.content[0].text`: IndexError on an empty response, and AttributeError when the first block has no text |
| Anthropic.InputSchema | simplemind/providers/anthropic.py:57-66 | `get_input_schema` gives the name, the description and an object schema whose `properties` is `get_properties_schema()`, so it has exactly the tool's property names, and whose `required` is the tool's list in order |
| Anthropic.ToolsKwargSchemas | simplemind/providers/anthropic.py:113-117 | There is a `tools` option iff a tool list was given, holding one input schema per tool, in order |
| Anthropic.ResponseSchema | simplemind/providers/anthropic.py:25-31 | Corrected: the tool_result entry (tool_use_id, content) exists iff the tool was executed. Otherwise AssertionError "Tool … was not executed." |
| Anthropic.ResponseSchemaAsWritten | simplemind/providers/anthropic.py:25-31 | As written, the assertion never fails: the tool_result carries the tool's `tool_id` and `function_result`, whether the tool ran or not |
| Anthropic.AsWrittenAssertionNeverFires | simplemind/providers/anthropic.py:26 | For a never-executed tool, the as-written schema returns a tool_result with null id and content, where the corrected one fails |
| Anthropic.ScanEntries | simplemind/providers/anthropic.py:37-51 | The loop raises iff some block cannot be handled. Otherwise there is one entry per block, in block order: a tool_use entry (id, name, input) iff the block's type is "tool_use" and its name is the tool's, else a text entry |
| Anthropic.ScanNoMatchKeepsState | simplemind/providers/anthropic.py:37-49 | Only matching blocks run the tool: with no matching block, `tool_id`/`function_result` are unchanged |
| Anthropic.ScanLastMatchWins | simplemind/providers/anthropic.py:48-49 | With several matching blocks, the last one sets `tool_id` and `function_result` (its call's result) |
| Anthropic.HandleAppends | simplemind/providers/anthropic.py:34-55 | The tool fields end as the block loop left them. As written, `handle` succeeds iff every block is handled, and then appends exactly two messages: the assistant message and a user message holding the tool_result of the tool's fields. A block that raises appends nothing. With the assertion checked (the intended reading), success also needs the tool to have run, and a failed assertion appends only the assistant message |
| Anthropic.HandleFreshTool | simplemind/providers/anthropic.py:34-55 | On a fresh tool, as written, `handle` succeeds iff every block can be handled. The list then grows by the assistant message (the block's own entry for each block) and a tool_result message: the id and call result of the last matching block, or null id and content when no block matches. The tool counts as executed iff some block matched, and earlier entries are untouched. With the assertion checked, a response with no matching block raises AssertionError "Tool … was not executed." |
| Anthropic.AnthropicTool.constructor | simplemind/providers/_base_tools.py:46-47 | A freshly built tool has no `tool_id` and no `function_result` |
| Anthropic.AnthropicTool.Handle | simplemind/providers/anthropic.py:34-55 | The in-place loop over the blocks and the two appends give exactly the outcome, tool fields and message list of `HandleSpec` as written |
| Anthropic.SendConversation | simplemind/providers/anthropic.py:98-143 | `send_conversation` returns exactly `Send`'s result, where each tool's `handle` is the as-written one |
| Anthropic.RunTools | simplemind/providers/anthropic.py:125-132 | The loop over the converted tools returns exactly what `ToolLoop` gives |
| Anthropic.ToolTurn | simplemind/providers/anthropic.py:126-132 | One tool turn: `handle`, then a new `create` on the grown message list iff the tool ran. The message list and the response to continue with are `TurnStep`'s |
| Anthropic.ToolLoopFacts | simplemind/providers/anthropic.py:125-132 | The tool loop keeps the requests made before it, and sends each new one with the caller's model and options |
| Anthropic.ToolLoopLastResponse | simplemind/providers/anthropic.py:125-132 | Without an exception, the loop ends holding the vendor's answer to the last request made |
| Anthropic.ToolLoopCount | simplemind/providers/anthropic.py:125-132 | Without an exception, the loop made exactly one request per turn whose response in hand asked for that turn's tool (`Reruns`) |
| Anthropic.Reruns | simplemind/providers/anthropic.py:125-132 | The number of turns that send a request is at most the number of tools |
| Anthropic.TurnStepFacts | simplemind/providers/anthropic.py:126-132 | One turn keeps the earlier requests and adds at most one, which carries the caller's model and options and the grown message list. Without an exception, the next response is the answer to that request, or the previous response when none was sent |
| Anthropic.TurnStepCount | simplemind/providers/anthropic.py:126-132 | Without an exception, a turn sends a request iff some block of the response in hand asks for its tool. Otherwise the response and the requests are unchanged |
| Anthropic.PlainReplyLoop | simplemind/providers/anthropic.py:125-132 | On a response where no block is a `tool_use` and every block has text, every turn passes, sends nothing and appends two messages. The response and the requests stay as they were |
| Anthropic.SendFromFacts | simplemind/providers/anthropic.py:119-143 | From the first `create` on: without a clashing keyword the first request is (model, messages, options), and every request has that model and those options. A success needs a tool list and returns an assistant Message stamped with the provider and the model, whose text is the first block's text of its raw response |
| Anthropic.SendFromLast | simplemind/providers/anthropic.py:125-143 | The raw response of a success is the vendor's answer to the last request made |
| Anthropic.SendFromCount | simplemind/providers/anthropic.py:119-132 | A success made the first request plus one request per turn whose tool was asked for (`Reruns`), so at most 1 + (number of tools) |
| Anthropic.SendRequests | simplemind/providers/anthropic.py:119-132 | Every request of a send carries the conversation's model or the default, and the same merged options |
| Anthropic.SendReply | simplemind/providers/anthropic.py:134-143 | A successful send returns role "assistant", provider "anthropic", model = `llm_model` or "claude-3-5-sonnet-20241022", and the first block's text of its raw response |
| Anthropic.SendReplyLast | simplemind/providers/anthropic.py:125-143 | The raw response of a successful send is the vendor's answer to the last request made |
| Anthropic.SendFirstRequest | simplemind/providers/anthropic.py:107-123 | The first request carries the conversation's (role, text) pairs in order, the model and the merged options. The options have a `tools` key iff a tool list was given (the contract also covers a `tools` key in kwargs, which a Python caller cannot pass because `tools` is a named parameter). Without tools the options are DEFAULT_KWARGS then kwargs |
| Anthropic.SendWithoutTools | simplemind/providers/anthropic.py:112-125 | Without tools, the send always fails. After one successful request, iterating the missing tool list raises TypeError |
| Anthropic.SendRequestCount | simplemind/providers/anthropic.py:125-132 | With a tool list, a successful send made at least 1 and at most 1 + (number of tools) requests |
| Anthropic.SendPlainReply | simplemind/providers/anthropic.py:119-143 | When the vendor's first answer is a plain reply, the send makes only that request and returns the Message built from it |
| Anthropic.TextRequest | simplemind/providers/anthropic.py:167-175 | `generate_text`'s request: one user turn, the model or its default, and the defaults merged under the kwargs |
| Anthropic.GenerateText | simplemind/providers/anthropic.py:166-177 | `generate_text` succeeds iff the request is well-formed, the call returns and the first block has text, and it returns that text |
| Anthropic.StructuredPrompt | simplemind/providers/anthropic.py:152 | The prompt is "prompt", else "messages", else "", and both keys are removed, because the inner `pop` always runs |
| Anthropic.StructuredRequest | simplemind/providers/anthropic.py:149-161 | One user turn holding the prompt, the model or its default, and the remaining kwargs over the defaults, without "prompt" or "messages" |
| Anthropic.StructuredResponse | simplemind/providers/anthropic.py:146-163 | A `model` keyword in kwargs raises TypeError "create() got multiple values for keyword argument 'model'" before the client runs. "messages" has been popped and `response_model` is a named parameter, so nothing else can clash for a Python caller. Otherwise the structured client's answer is returned |
| Utils.FindProvider | simplemind/utils.py:4-10 | Success iff some registered class's lower-cased name equals the lower-cased name, and then it is the first such class. No match raises ValueError "Provider … not found". A None name fails, with AttributeError iff the registry is non-empty |
| Utils.FindProviderCaseInsensitive | simplemind/utils.py:7 | Names equal after lower-casing select the same class |
| Utils.RegisteredNameIsFound | simplemind/utils.py:6-9 | Any case variant of a registered name finds that class, unless an earlier entry shares its lower-cased name |
| Utils.EarlierEntryWins | simplemind/utils.py:6-9 | Of two entries with the same lower-cased name, the later one is never returned |
| ClientConversation.SentHistory | simplemind/conversation.py:15-16 | A truthy message is appended as a user turn. A falsy or None one adds nothing |
| ClientConversation.Ask | simplemind/conversation.py:18 | The client receives the history and the kwargs. A `message_history` kwarg raises TypeError |
| ClientConversation.AfterSend | simplemind/conversation.py:13-24 | The history only grows at the end. An assistant turn with `response.text` is added iff the client returned and its text is a str |
| ClientConversation.Conversation.constructor | simplemind/conversation.py:4-6 | A new conversation has an empty history |
| ClientConversation.Conversation.AddMessage | simplemind/conversation.py:8-11 | Exactly one {role, content} is appended at the end, role "user" unless given, and the conversation itself is returned |
| ClientConversation.Conversation.Send | simplemind/conversation.py:13-24 | The client gets the whole history including the new user turn. Its response is returned unchanged, and the history becomes `AfterSend` |
| CoreModels.AIRequest.ToString | simplemind/core/models.py:11-12 | `str(request)` is its text |
| CoreModels.AIResponse.Content | simplemind/core/models.py:29-32 | The first choice's message content exists iff there is a choice. Otherwise IndexError |
| CoreModels.Conversation.constructor | simplemind/core/models.py:35-40 | A new conversation has no messages |
| CoreModels.Conversation.GetMessages | simplemind/core/models.py:42-44 | `get_messages` is the history |
| CoreModels.Conversation.AddMessage | simplemind/core/models.py:46-51 | One Message(role, content) is appended at the end and returned, so it is the last element, and the length grows by one |
| ModelsBase.Conversation.constructor | simplemind/models/base.py:10-15 | By default there are no messages and the context is empty |
| ModelsBase.Conversation.AddMessage | simplemind/models/base.py:17-21 | One Message(role, content) is appended at the end and returned, and the context is unchanged |
| OpenAI.KeyAfterFallback | simplemind/providers/openai.py:17-18 | The given key is kept unless it is None or "", in which case the settings key is used |
| OpenAI.TestConnection | simplemind/providers/openai.py:38-45 | True iff there is a client and listing the models does not raise; before login (no client) it is False |
| OpenAI.AvailableModels | simplemind/providers/openai.py:30-36 | The listed ids in listing order, or [] when there is no client yet or listing raises |
| OpenAI.ModelName | simplemind/providers/openai.py:61-67 | `self.model` when it is a str not starting with "sk-", else "gpt-4". The name sent never starts with "sk-" |
| OpenAI.WireMessages | simplemind/providers/openai.py:55-58 | One (role, content) per conversation message, in order |
| OpenAI.ApiError | simplemind/providers/openai.py:47-50 | Any error becomes ProviderError "OpenAI API error: …" |
| OpenAI.GenerateResponse | simplemind/providers/openai.py:52-76 | Every failure is a ProviderError. With a client, the SDK's completion is returned, and its exception is wrapped |
| OpenAI.GenerateText | simplemind/providers/openai.py:78-80 | The first choice's content. An empty choice list raises IndexError (outside the try), and `generate_response`'s ProviderError propagates |
| OpenAI.LoginSpec | simplemind/providers/openai.py:16-28 | Success iff the resolved key is non-empty, the client builds and the connection test passes. No key raises AuthenticationError with no client built. Every later failure is a ProviderError; a built client is kept |
| OpenAI.ExplicitKeyWins | simplemind/providers/openai.py:17-18 | A non-empty given key is kept, and with a working client login succeeds with it |
| OpenAI.OpenAIProvider.constructor | simplemind/providers/openai.py:12-13 | The model and key are stored, and there is no client yet |
| OpenAI.OpenAIProvider.Login | simplemind/providers/openai.py:16-28 | `login` leaves exactly `LoginSpec`'s outcome, key and client, and does not touch the model |
| OpenAI.OpenAIProvider.Generate | simplemind/providers/openai.py:52-76 | `generate_response` on the provider's model and client: every failure is a ProviderError, no client gives the wrapped missing-client error, and with a client the SDK's completion is returned and its exception wrapped |
| PluginsBase.FlagAfter | simplemind/plugins/base.py:23-29 | After a sequence of enable/disable calls the flag is set iff the last call was enable, and it is unchanged by no call |
| PluginsBase.SwitchIdempotent | simplemind/plugins/base.py:23-29 | Repeating the last call changes nothing |
| PluginsBase.BasePlugin.constructor | simplemind/plugins/base.py:8-9 | A new plugin is enabled |
| PluginsBase.BasePlugin.Enable | simplemind/plugins/base.py:23-25 | `enable` sets the flag, whatever it was, and changes nothing else |
| PluginsBase.BasePlugin.Disable | simplemind/plugins/base.py:27-29 | `disable` clears the flag, whatever it was, and changes nothing else |
| BasicMemory.MemoryKeepsCallOrder | simplemind/plugins/basic_memory.py:9 | After several calls the memory is the earlier entries followed by the messages in call order |
| BasicMemory.BasicMemoryPlugin.constructor | simplemind/plugins/basic_memory.py:5-6 | Memory starts empty |
| BasicMemory.BasicMemoryPlugin.Execute | simplemind/plugins/basic_memory.py:8-10 | The message is appended at the end, and the memory after the append is returned |
| KV.Put | simplemind/plugins/kv.py:9 | `store[key] = value`: the key maps to the value, the other keys are unchanged, and an unhashable key raises TypeError |
| KV.PutIdempotent | simplemind/plugins/kv.py:9 | Repeating the same call leaves the store as it was after the first call |
| KV.KVPlugin.constructor | simplemind/plugins/kv.py:5-6 | The store starts empty |
| KV.KVPlugin.Execute | simplemind/plugins/kv.py:8-10 | The store becomes `Put`'s result and is returned. It is unchanged on TypeError |
| Concepts.Context.constructor | simplemind/concepts.py:7 | A default Context has no plugins |
| Concepts.Context.AddPlugin | simplemind/concepts.py:9-10 | The name is bound to the plugin, overwriting, and all other bindings are unchanged |
| Concepts.Context.ExecutePlugin | simplemind/concepts.py:12-16 | A bound plugin's `execute` runs on the forwarded arguments, and its result is returned. Too many arguments raise TypeError "….execute() takes N positional arguments but M were given", too few TypeError "….execute() missing k required positional argument(s): …" naming the missing parameters. An object without `execute` raises AttributeError, and an unbound name raises ValueError "Plugin '…' not found in context." Only the target plugin changes |
| Concepts.QuotedNamesExamples | simplemind/concepts.py:14 | The missing names are listed as Python does: 'value' for one, 'key' and 'value' for two |
| ReverseText.Reverse | simplemind/chains/reverse_text.py:25 | The length is preserved, and `output[i] == input[n-1-i]` |
| ReverseText.ReverseInvolution | simplemind/chains/reverse_text.py:25 | Reversing twice gives the text back |
| ReverseText.Run | simplemind/chains/reverse_text.py:11-25 | `run` succeeds iff the input is a str, and returns it reversed. Otherwise TypeError "Input must be a string" |
| ReverseText.RunExamples | simplemind/chains/reverse_text.py:7-8 | "hello" becomes "olleh", and "" stays "" |
| ReverseText.RunTwice | simplemind/chains/reverse_text.py:25 | Running the chain on its own output gives the input back |

## Left out

- Vendor SDK calls (`messages.create`, the instructor client, `chat.completions.create`, `models.list`, `BaseOpenAI(...)`, the chat client of `conversation.py`) are network I/O. Each is an oracle parameter. The `client`/`structured_client` cached properties and the Anthropic API-key lookup in `__init__` are not modelled.
- `generate_stream_text` is not modelled, because it is a generator over a vendor stream.
- `model_validate`, pydantic validation of tool properties beyond "the description must be a str", `model_dump` details and instructor patching are foreign library behaviour. `get_properties_schema` is a key-preserving map.
- Logging (the `logger` decorator and calls), settings loading and timestamps (`created_at`, `updated_at`) are not modelled.
- Python's `str.lower` and `str.strip` are modelled on ASCII letters and on Python's whitespace code points. Unicode case folding is not modelled.
- A tool function is modelled as returning `str(result)` directly. It takes keyword arguments only from the block's `input`.
- Anthropic.Send: the intended reading of the assertion is carried through `handle` only (`HandleSpec` with `checked`). The send-level lemmas are about the code as written.
- Anthropic.SendConversation: the tool objects are created one per loop iteration rather than all at once by `make_tools`. Creating a tool has no observable effect, so the outcome is the same.
- Utils.FindProvider: returns the matching class, not an instance of it. `provider_class()` is not modelled. The module-level `providers` registry that simplemind/utils.py:1 imports is not defined by simplemind/providers/__init__.py, so the registry is a parameter.
- simplemind/providers/_base.py:61 lacks a colon, so the module does not parse as written. `make_tools` is modelled on the evident reading of lines 61-63.
- providers/base.py (`BaseClientProvider`) is not part of this model. OpenAI.OpenAIProvider.constructor assumes that it stores `model` and `api_key`. The model does not call `login` from the constructor: `Login` is a separate method.
- CoreModels.Conversation.GetMessages: returns the history's value. That the caller gets the same list object (aliasing) is not modelled. The same holds for the lists and dicts that the plugins' `execute` return.
- CoreModels.Conversation: the `context` field and `set_context` are not modelled.
- The plugins' `execute` ignores its context argument, so the model leaves it out. `execute_plugin` forwards positional arguments only; keyword arguments are not modelled.
- `process` is abstract, so BasicMemoryPlugin and KVPlugin cannot be instantiated as written. Their `execute` behaviour is modelled as given. Neither runs BasePlugin's constructor, so they have no enabled flag and the inherited `enable`/`disable` are not modelled on them.
- KV.Put: Python dict keys that compare equal across types (`True` and `1`) are distinct keys here.
- `BaseTool` as a pydantic model (`required: list[str] | None`, `ClassVar` config) is modelled only as the schema record built by `from_function`.
- Thin vendor adapters besides Anthropic and OpenAI, the integrations, the dispatch clients, the FAISS store, the HTTP endpoint and the example scripts are outside the modelled core.

## Findings

| source | as written | input that shows it | evidently intended | confidence | as-written member | corrected member |
|---|---|---|---|---|---|---|
| simplemind/providers/anthropic.py:26 | `assert self.is_executed` tests the bound method object, which is always truthy, so the assertion never fails | `handle` on a response with no `tool_use` block for a fresh tool: a `tool_result` with null `tool_use_id` and `content` is appended | the assertion fails with "Tool … was not executed." unless `function_result` is set | not executed; high for the defect. Under the intended reading `send_conversation` would fail whenever a listed tool is not called, which is why the rest of the model keeps the behaviour as written | Anthropic.ResponseSchemaAsWritten (Anthropic.AsWrittenAssertionNeverFires) | Anthropic.ResponseSchema (Anthropic.HandleAppends and Anthropic.HandleFreshTool with the assertion checked) |
