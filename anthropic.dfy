/**
 * simplemind/providers/anthropic.py: the Anthropic tool (`handle`,
 * `get_response_schema`, `get_input_schema`) and the provider's request
 * building and tool-turn loop.  The vendor SDK call `client.messages.create`
 * is the oracle `Client`: a function from the request to the vendor's
 * response or the exception it raises.
 */
module Anthropic {
  import opened Wrappers
  import opened Python
  import opened BaseTools
  import opened BaseProvider

  const ProviderName := "anthropic"
  const DefaultModel := "claude-3-5-sonnet-20241022"
  const DefaultMaxTokens := 1000
  const DefaultKwargs: map<string, Value> := map["max_tokens" := PyInt(DefaultMaxTokens)]

  /** The Anthropic provider class: it turns streaming on and keeps structured responses. */
  const AnthropicClass := ProviderClass("Anthropic", ProviderName, DefaultModel, Some(true), None)

  /**
   * A content block of a vendor response: its `type`, and the attributes a
   * tool_use block has (`id`, `name`, `input`); `text` is None when the block
   * has no `text` attribute (a tool_use block, for one).
   */
  datatype Block = Block(kind: string, id: string, name: string, input: map<string, Value>, text: Option<string>)

  /** A vendor response, seen through its `content` list. */
  datatype Response = Response(content: seq<Block>)

  /** An entry of a wire message's content list. */
  datatype Entry =
    | TextEntry(text: string)
    | ToolUseEntry(id: string, name: string, input: map<string, Value>)
    | ToolResultEntry(toolUseId: Option<string>, content: Option<string>)

  /** The `content` of a wire message: a string, a list of entries, or a caller-supplied value. */
  datatype WireContent = Text(text: string) | Entries(entries: seq<Entry>) | RawContent(value: Value)

  /** One `{"role": ..., "content": ...}` dict of the request's `messages`. */
  datatype WireMessage = WireMessage(role: string, content: WireContent)

  /** One call of `client.messages.create(model=..., messages=..., **options)`. */
  datatype Request = Request(model: string, messages: seq<WireMessage>, options: map<string, Value>)

  /** The vendor SDK call. */
  type Client = Request -> Result<Response, Error>

  /** A message of the conversation handed to `send_conversation`, as read there (`role`, `text`). */
  datatype ChatMessage = ChatMessage(role: string, text: string)

  /** The conversation handed to `send_conversation`: its messages and its `llm_model`. */
  datatype Conversation = Conversation(messages: seq<ChatMessage>, llmModel: Option<string>)

  /** The Message that `send_conversation` returns. */
  datatype AssistantMessage = AssistantMessage(role: string, text: string, raw: Response, llmModel: string, llmProvider: string)

  /** `[{"role": m.role, "content": m.text} for m in conversation.messages]`. */
  function WireMessages(ms: seq<ChatMessage>): (r: seq<WireMessage>)
    ensures |r| == |ms|
    ensures forall i :: 0 <= i < |ms| ==> r[i] == WireMessage(ms[i].role, Text(ms[i].text))
  {
    if ms == [] then [] else [WireMessage(ms[0].role, Text(ms[0].text))] + WireMessages(ms[1..])
  }

  /** `{**DEFAULT_KWARGS, **kwargs, **extra}`: later mappings win, so `max_tokens` is 1000 unless overridden. */
  function MergeOptions(kwargs: map<string, Value>, extra: map<string, Value>): (r: map<string, Value>)
    ensures r.Keys == DefaultKwargs.Keys + kwargs.Keys + extra.Keys
    ensures forall k :: k in r ==>
              r[k] == if k in extra then extra[k] else if k in kwargs then kwargs[k] else DefaultKwargs[k]
    ensures "max_tokens" !in extra ==>
              r["max_tokens"] == if "max_tokens" in kwargs then kwargs["max_tokens"] else PyInt(1000)
  {
    DefaultKwargs + kwargs + extra
  }

  /** `response.content[0].text`. */
  function FirstText(response: Response): (r: Result<string, Error>)
    ensures r.Success? <==> |response.content| > 0 && response.content[0].text.Some?
    ensures r.Success? ==> r.value == response.content[0].text.value
    ensures |response.content| == 0 ==> r == Failure(Error(IndexError, "list index out of range"))
    ensures |response.content| > 0 && response.content[0].text.None? ==> r.Failure? && r.error.kind == AttributeError
  {
    if |response.content| == 0 then Failure(Error(IndexError, "list index out of range"))
    else match response.content[0].text
      case None => Failure(NoText(response.content[0]))
      case Some(t) => Success(t)
  }

  /**
   * The AttributeError of `content.text` on a block without text.  Python's
   * message names the SDK class of the block ("'ToolUseBlock' object has no
   * attribute 'text'"); SDK class names are not modelled, so this text is
   * illustrative and only the exception's kind is relied on.
   */
  function NoText(b: Block): Error {
    Error(AttributeError, "content block of type '" + b.kind + "' has no attribute 'text'")
  }

  function StrList(xs: seq<string>): (r: Value)
    ensures r.PyList? && |r.items| == |xs|
    ensures forall i :: 0 <= i < |xs| ==> r.items[i] == PyStr(xs[i])
  {
    PyList(seq(|xs|, i requires 0 <= i < |xs| => PyStr(xs[i])))
  }

  /** AnthropicTool.get_input_schema. */
  function InputSchema(s: ToolSchema): (r: Value)
    ensures r.PyDict? && r.entries.Keys == {"name", "description", "input_schema"}
    ensures r.entries["name"] == PyStr(s.name) && r.entries["description"] == PyStr(s.description)
    ensures var input := r.entries["input_schema"];
      && input.PyDict? && input.entries.Keys == {"type", "properties", "required"}
      && input.entries["type"] == PyStr("object")
      && input.entries["properties"] == PyDict(PropertiesSchema(s.properties))
      && input.entries["properties"].entries.Keys == s.properties.Keys
      && input.entries["required"] == StrList(s.required)
  {
    PyDict(map[
      "name" := PyStr(s.name),
      "description" := PyStr(s.description),
      "input_schema" := PyDict(map[
        "type" := PyStr("object"),
        "properties" := PyDict(PropertiesSchema(s.properties)),
        "required" := StrList(s.required)])])
  }

  /** The `tools` request option: absent when no tool list was given. */
  function ToolsKwarg(converted: Option<Result<seq<ToolSchema>, Error>>): map<string, Value>
    requires converted.None? || converted.value.Success?
  {
    match converted
    case None => map[]
    case Some(schemas) =>
      var ss := schemas.value;
      map["tools" := PyList(seq(|ss|, i requires 0 <= i < |ss| => InputSchema(ss[i])))]
  }

  /** There is a `tools` option exactly when a tool list was given, holding one input schema per tool, in order. */
  lemma ToolsKwargSchemas(converted: Option<Result<seq<ToolSchema>, Error>>)
    requires converted.None? || converted.value.Success?
    ensures converted.None? ==> ToolsKwarg(converted) == map[]
    ensures var r := ToolsKwarg(converted);
      converted.Some? ==>
        && r.Keys == {"tools"} && r["tools"].PyList?
        && |r["tools"].items| == |converted.value.value|
        && forall i :: 0 <= i < |converted.value.value| ==> r["tools"].items[i] == InputSchema(converted.value.value[i])
  {
  }

  /** AnthropicTool.get_response_schema, with its assertion that the tool was executed. */
  function ResponseSchema(name: string, st: ToolState): (r: Result<Entry, Error>)
    ensures r.Success? <==> st.IsExecuted()
    ensures r.Success? ==> r.value == ToolResultEntry(st.toolId, st.functionResult)
    ensures r.Failure? ==> r.error == Error(AssertionError, "Tool " + name + " was not executed.")
  {
    if st.IsExecuted() then Success(ToolResultEntry(st.toolId, st.functionResult))
    else Failure(Error(AssertionError, "Tool " + name + " was not executed."))
  }

  /**
   * get_response_schema as written: `assert self.is_executed` tests the bound
   * method object, which is always truthy, so the assertion never fails and
   * the schema is built from whatever the tool holds, run or not.
   */
  function ResponseSchemaAsWritten(name: string, st: ToolState): (r: Result<Entry, Error>)
    ensures r.Success?
  {
    Success(ToolResultEntry(st.toolId, st.functionResult))
  }

  /** On a never-executed tool, the as-written schema passes with null id and content where the intended one fails. */
  lemma AsWrittenAssertionNeverFires(name: string)
    ensures ResponseSchemaAsWritten(name, ToolState(None, None)) == Success(ToolResultEntry(None, None))
    ensures ResponseSchema(name, ToolState(None, None)).Failure?
  {
  }

  /** A block is a request to run the tool named `name`. */
  predicate Matches(name: string, b: Block) {
    b.kind == "tool_use" && b.name == name
  }

  /** The assistant entries, tool fields and exception after `handle`'s loop over some blocks. */
  datatype ScanResult = ScanResult(entries: seq<Entry>, state: ToolState, error: Option<Error>)

  /** The loop of `handle` over the response's blocks (lines 37-51). */
  function Scan(name: string, call: ToolFunction, init: ToolState, blocks: seq<Block>): ScanResult
    decreases |blocks|
  {
    if blocks == [] then ScanResult([], init, None)
    else
      var prev := Scan(name, call, init, blocks[..|blocks| - 1]);
      var b := blocks[|blocks| - 1];
      if prev.error.Some? then prev
      else if Matches(name, b) then
        match call(b.input)
        case Failure(e) => prev.(error := Some(e))
        case Success(out) => ScanResult(prev.entries + [ToolUseEntry(b.id, b.name, b.input)], ToolState(Some(b.id), Some(out)), None)
      else
        match b.text
        case None => prev.(error := Some(NoText(b)))
        case Some(t) => prev.(entries := prev.entries + [TextEntry(t)])
  }

  /** A block `handle` can process: a matching one whose call returns, or another one that has text. */
  predicate BlockOk(name: string, call: ToolFunction, b: Block) {
    if Matches(name, b) then call(b.input).Success? else b.text.Some?
  }

  /** The entry `handle` records for a block it can process. */
  function EntryFor(name: string, call: ToolFunction, b: Block): Entry
    requires BlockOk(name, call, b)
  {
    if Matches(name, b) then ToolUseEntry(b.id, b.name, b.input) else TextEntry(b.text.value)
  }

  /**
   * One assistant entry per block, in block order: a tool_use entry (id, name
   * and input copied) for a matching block, a text entry otherwise; the loop
   * raises exactly when some block cannot be processed.
   */
  lemma {:induction false} ScanEntries(name: string, call: ToolFunction, init: ToolState, blocks: seq<Block>)
    ensures Scan(name, call, init, blocks).error.None? <==> forall k :: 0 <= k < |blocks| ==> BlockOk(name, call, blocks[k])
    ensures var s := Scan(name, call, init, blocks);
      s.error.None? ==>
        && |s.entries| == |blocks|
        && forall k :: 0 <= k < |blocks| ==> s.entries[k] == EntryFor(name, call, blocks[k])
    decreases |blocks|
  {
    if blocks != [] {
      var front := blocks[..|blocks| - 1];
      ScanEntries(name, call, init, front);
      assert forall k :: 0 <= k < |front| ==> front[k] == blocks[k];
    }
  }

  /** Block `j` is the last block asking for the tool named `name`. */
  predicate LastMatchAt(name: string, blocks: seq<Block>, j: int) {
    && 0 <= j < |blocks|
    && Matches(name, blocks[j])
    && forall m :: j < m < |blocks| ==> !Matches(name, blocks[m])
  }

  /** Only matching blocks run the tool: when no block matches, the tool fields are left as they were. */
  lemma {:induction false} ScanNoMatchKeepsState(name: string, call: ToolFunction, init: ToolState, blocks: seq<Block>)
    requires forall k :: 0 <= k < |blocks| ==> !Matches(name, blocks[k])
    ensures Scan(name, call, init, blocks).state == init
    decreases |blocks|
  {
    if blocks != [] {
      var front := blocks[..|blocks| - 1];
      assert forall k :: 0 <= k < |front| ==> front[k] == blocks[k];
      ScanNoMatchKeepsState(name, call, init, front);
    }
  }

  /** The last matching block wins: the tool fields hold its id and its call's result. */
  lemma {:induction false} ScanLastMatchWins(name: string, call: ToolFunction, init: ToolState, blocks: seq<Block>, j: int)
    requires LastMatchAt(name, blocks, j)
    ensures var s := Scan(name, call, init, blocks);
      s.error.None? ==> call(blocks[j].input).Success? && s.state == ToolState(Some(blocks[j].id), Some(call(blocks[j].input).value))
    decreases |blocks|
  {
    var last := |blocks| - 1;
    if j < last {
      var front := blocks[..last];
      assert !Matches(name, blocks[last]);
      assert front[j] == blocks[j];
      assert LastMatchAt(name, front, j) by {
        forall m | j < m < |front| ensures !Matches(name, front[m]) {
          assert front[m] == blocks[m];
        }
      }
      ScanLastMatchWins(name, call, init, front, j);
    }
  }

  /** What `handle` leaves behind: its outcome, the tool fields, and the caller's message list. */
  datatype HandleResult = HandleResult(outcome: Outcome<Error>, state: ToolState, log: seq<WireMessage>)

  /**
   * AnthropicTool.handle on a response, a tool state and the caller's message
   * list.  `checked` selects the tool_result step: false is
   * `get_response_schema` as written (its assertion never fires), true is the
   * assertion its message describes.  The tool and the provider use false.
   */
  function HandleSpec(name: string, call: ToolFunction, init: ToolState, response: Response, log: seq<WireMessage>,
                      checked: bool): HandleResult
  {
    var s := Scan(name, call, init, response.content);
    if s.error.Some? then HandleResult(Fail(s.error.value), s.state, log)
    else
      var withAssistant := log + [WireMessage("assistant", Entries(s.entries))];
      match if checked then ResponseSchema(name, s.state) else ResponseSchemaAsWritten(name, s.state)
      case Failure(e) => HandleResult(Fail(e), s.state, withAssistant)
      case Success(entry) => HandleResult(Pass, s.state, withAssistant + [WireMessage("user", Entries([entry]))])
  }

  /**
   * `handle` appends exactly two messages on success (the assistant message,
   * then the user tool_result message); nothing when the loop raises.  As
   * written it succeeds whenever the loop does; with the assertion checked it
   * also needs the tool to have run, and otherwise appends only the assistant
   * message.  Earlier entries stay as they were.
   */
  lemma HandleAppends(name: string, call: ToolFunction, init: ToolState, response: Response, log: seq<WireMessage>,
                      checked: bool)
    ensures var r := HandleSpec(name, call, init, response, log, checked);
      r.state == Scan(name, call, init, response.content).state
    ensures var r := HandleSpec(name, call, init, response, log, checked);
      r.outcome.Pass? <==> Scan(name, call, init, response.content).error.None? && (checked ==> r.state.IsExecuted())
    ensures var r := HandleSpec(name, call, init, response, log, checked);
      r.outcome.Pass? ==>
        r.log == log + [WireMessage("assistant", Entries(Scan(name, call, init, response.content).entries)),
                        WireMessage("user", Entries([ToolResultEntry(r.state.toolId, r.state.functionResult)]))]
    ensures var r := HandleSpec(name, call, init, response, log, checked);
      r.outcome.Fail? && Scan(name, call, init, response.content).error.None? ==>
        && checked
        && r.outcome.error == Error(AssertionError, "Tool " + name + " was not executed.")
        && r.log == log + [WireMessage("assistant", Entries(Scan(name, call, init, response.content).entries))]
    ensures var r := HandleSpec(name, call, init, response, log, checked);
      Scan(name, call, init, response.content).error.Some? ==>
        r.outcome == Fail(Scan(name, call, init, response.content).error.value) && r.log == log
  {
  }

  /** No block of the response asks for the tool named `name`. */
  predicate NoMatch(name: string, blocks: seq<Block>) {
    forall k :: 0 <= k < |blocks| ==> !Matches(name, blocks[k])
  }

  /**
   * `handle` on a tool that has not run yet.  As written it succeeds exactly
   * when every block can be processed, and then the message list grows by the
   * assistant message (one entry per block) and a user message holding the
   * tool_result of the last matching block, or a tool_result with no id and
   * no content when no block matches; the tool then counts as executed iff
   * some block matched.  With the assertion checked, a response where no block
   * matches fails with AssertionError "Tool ... was not executed.".
   */
  lemma HandleFreshTool(name: string, call: ToolFunction, response: Response, log: seq<WireMessage>, checked: bool)
    ensures var h := HandleSpec(name, call, ToolState(None, None), response, log, checked);
      h.outcome.Pass? <==>
        (forall k :: 0 <= k < |response.content| ==> BlockOk(name, call, response.content[k]))
        && (checked ==> !NoMatch(name, response.content))
    ensures var h := HandleSpec(name, call, ToolState(None, None), response, log, checked);
      h.outcome.Pass? ==>
        && |h.log| == |log| + 2
        && h.log[..|log|] == log
        && h.log[|log|].role == "assistant"
        && h.log[|log|].content.Entries?
        && |h.log[|log|].content.entries| == |response.content|
        && (forall k :: 0 <= k < |response.content| ==>
              h.log[|log|].content.entries[k] == EntryFor(name, call, response.content[k]))
        && h.log[|log| + 1].role == "user"
        && (h.state.IsExecuted() <==> !NoMatch(name, response.content))
        && (NoMatch(name, response.content) ==> h.log[|log| + 1].content == Entries([ToolResultEntry(None, None)]))
        && (!NoMatch(name, response.content) ==>
              var j := LastMatch(name, response.content);
              h.log[|log| + 1].content
              == Entries([ToolResultEntry(Some(response.content[j].id), Some(call(response.content[j].input).value))]))
    ensures var h := HandleSpec(name, call, ToolState(None, None), response, log, checked);
      checked && NoMatch(name, response.content) && (forall k :: 0 <= k < |response.content| ==> BlockOk(name, call, response.content[k])) ==>
        h.outcome == Fail(Error(AssertionError, "Tool " + name + " was not executed."))
  {
    var blocks := response.content;
    var init := ToolState(None, None);
    HandleAppends(name, call, init, response, log, checked);
    ScanEntries(name, call, init, blocks);
    var s := Scan(name, call, init, blocks);
    if s.error.None? {
      if !NoMatch(name, blocks) {
        var j := LastMatch(name, blocks);
        ScanLastMatchWins(name, call, init, blocks, j);
      } else {
        ScanNoMatchKeepsState(name, call, init, blocks);
      }
    }
  }

  /** The index of the last block that matches `name`. */
  function LastMatch(name: string, blocks: seq<Block>): (j: nat)
    requires !NoMatch(name, blocks)
    ensures LastMatchAt(name, blocks, j)
    decreases |blocks|
  {
    if Matches(name, blocks[|blocks| - 1]) then |blocks| - 1
    else
      var front := blocks[..|blocks| - 1];
      assert exists k :: 0 <= k < |front| && Matches(name, front[k]) by {
        var k :| 0 <= k < |blocks| && Matches(name, blocks[k]);
        assert k < |front| && front[k] == blocks[k];
      }
      LastMatch(name, front)
  }

  /** The request's `messages` list, which `handle` appends to in place. */
  class WireLog {
    var entries: seq<WireMessage>

    constructor (entries: seq<WireMessage>)
      ensures this.entries == entries
    {
      this.entries := entries;
    }
  }

  /** AnthropicTool: a built tool schema, its callable, and the fields `handle` sets. */
  class AnthropicTool {
    const schema: ToolSchema
    const rawFunc: ToolFunction
    var toolId: Option<string>
    var functionResult: Option<string>

    /** A freshly built tool has not run: no tool_id and no function_result. */
    constructor (schema: ToolSchema, rawFunc: ToolFunction)
      ensures this.schema == schema && this.rawFunc == rawFunc
      ensures State() == ToolState(None, None)
    {
      this.schema := schema;
      this.rawFunc := rawFunc;
      toolId := None;
      functionResult := None;
    }

    function State(): ToolState
      reads this
    {
      ToolState(toolId, functionResult)
    }

    /** BaseTool.is_executed. */
    predicate IsExecuted()
      reads this
    {
      State().IsExecuted()
    }

    /** AnthropicTool.handle: run the matching blocks, then append the assistant and tool_result messages. */
    method Handle(response: Response, messages: WireLog) returns (r: Outcome<Error>)
      modifies this, messages
      ensures var h := HandleSpec(schema.name, rawFunc, old(State()), response, old(messages.entries), false);
        r == h.outcome && State() == h.state && messages.entries == h.log
    {
      var blocks := response.content;
      var content: seq<Entry> := [];
      var i := 0;
      while i < |blocks|
        invariant 0 <= i <= |blocks|
        invariant Scan(schema.name, rawFunc, old(State()), blocks[..i]) == ScanResult(content, State(), None)
        invariant messages.entries == old(messages.entries)
      {
        var b := blocks[i];
        assert blocks[..i + 1][..i] == blocks[..i];
        if b.kind == "tool_use" && b.name == schema.name {
          content := content + [ToolUseEntry(b.id, b.name, b.input)];
          var result := rawFunc(b.input);
          if result.Failure? {
            BlocksAfterError(schema.name, rawFunc, old(State()), blocks, i + 1);
            return Fail(result.error);
          }
          functionResult := Some(result.value);
          toolId := Some(b.id);
        } else {
          if b.text.None? {
            BlocksAfterError(schema.name, rawFunc, old(State()), blocks, i + 1);
            return Fail(NoText(b));
          }
          content := content + [TextEntry(b.text.value)];
        }
        i := i + 1;
      }
      assert blocks[..i] == blocks;
      messages.entries := messages.entries + [WireMessage("assistant", Entries(content))];
      var result := ResponseSchemaAsWritten(schema.name, State());
      messages.entries := messages.entries + [WireMessage("user", Entries([result.value]))];
      r := Pass;
    }
  }

  /** Once the loop of `handle` raises, later blocks change nothing. */
  lemma {:induction false} BlocksAfterError(name: string, call: ToolFunction, init: ToolState, blocks: seq<Block>, k: nat)
    requires k <= |blocks|
    requires Scan(name, call, init, blocks[..k]).error.Some?
    ensures Scan(name, call, init, blocks) == Scan(name, call, init, blocks[..k])
    decreases |blocks| - k
  {
    if k < |blocks| {
      assert blocks[..k + 1][..k] == blocks[..k];
      BlocksAfterError(name, call, init, blocks, k + 1);
    } else {
      assert blocks[..k] == blocks;
    }
  }

  /** The message list, latest response and requests made so far by `send_conversation`'s tool loop. */
  datatype LoopState = LoopState(log: seq<WireMessage>, response: Response, requests: seq<Request>, error: Option<Error>)

  /** The first `n` iterations of `for tool in converted_tools` (lines 125-132). */
  function ToolLoop(schemas: seq<ToolSchema>, fns: seq<PyFunction>, model: string, options: map<string, Value>,
                    client: Client, start: LoopState, n: nat): LoopState
    requires n <= |schemas| == |fns|
  {
    if n == 0 then start
    else
      var prev := ToolLoop(schemas, fns, model, options, client, start, n - 1);
      if prev.error.Some? then prev else TurnStep(prev, schemas[n - 1], fns[n - 1], model, options, client)
  }

  /** One iteration of the tool loop: `tool.handle(response, messages)`, then a new request if the tool ran. */
  function TurnStep(prev: LoopState, schema: ToolSchema, fn: PyFunction, model: string, options: map<string, Value>,
                    client: Client): LoopState
  {
    var h := HandleSpec(schema.name, fn.call, ToolState(None, None), prev.response, prev.log, false);
    if h.outcome.Fail? then prev.(log := h.log, error := Some(h.outcome.error))
    else if !h.state.IsExecuted() then prev.(log := h.log)
    else
      var request := Request(model, h.log, options);
      match client(request)
      case Failure(e) => LoopState(h.log, prev.response, prev.requests + [request], Some(e))
      case Success(next) => LoopState(h.log, next, prev.requests + [request], None)
  }

  /** How many of the first `n` turns found their tool asked for by the response in hand. */
  function Reruns(schemas: seq<ToolSchema>, fns: seq<PyFunction>, model: string, options: map<string, Value>,
                  client: Client, start: LoopState, n: nat): (r: nat)
    requires n <= |schemas| == |fns|
    ensures r <= n
  {
    if n == 0 then 0
    else
      var prev := ToolLoop(schemas, fns, model, options, client, start, n - 1);
      Reruns(schemas, fns, model, options, client, start, n - 1)
      + if prev.error.None? && !NoMatch(schemas[n - 1].name, prev.response.content) then 1 else 0
  }

  /** What `send_conversation` returns, and the requests it made, in order. */
  datatype SendOutcome = SendOutcome(result: Result<AssistantMessage, Error>, requests: seq<Request>)

  /** The Message built from the final response (lines 134-143). */
  function Reply(response: Response, model: string): Result<AssistantMessage, Error> {
    var text :- FirstText(response);
    Success(AssistantMessage("assistant", text, response, model, ProviderName))
  }

  /** The outcome once the tool loop has finished: its exception, or the Message from the last response. */
  function AfterTools(loop: LoopState, model: string): SendOutcome {
    if loop.error.Some? then SendOutcome(Failure(loop.error.value), loop.requests)
    else SendOutcome(Reply(loop.response, model), loop.requests)
  }

  /** send_conversation from the first `create` call on (lines 119-143), given the built tools and merged options. */
  function SendFrom(model: string, messages: seq<WireMessage>, tools: Option<seq<PyFunction>>,
                    schemas: Option<seq<ToolSchema>>, options: map<string, Value>, client: Client): SendOutcome
    requires schemas.Some? ==> tools.Some? && |schemas.value| == |tools.value|
  {
    var conflict := KeywordConflict("create", options, ["model", "messages"]);
    if conflict.Some? then SendOutcome(Failure(conflict.value), [])
    else
      var first := Request(model, messages, options);
      match client(first)
      case Failure(e) => SendOutcome(Failure(e), [first])
      case Success(response) =>
        if schemas.None? then
          SendOutcome(Failure(Error(TypeError, "'NoneType' object is not iterable")), [first])
        else
          AfterTools(ToolLoop(schemas.value, tools.value, model, options, client,
                              LoopState(messages, response, [first], None), |schemas.value|), model)
  }

  /** A successful outcome's raw response is what the client returned for the last request made. */
  predicate AnsweredLast(o: SendOutcome, client: Client) {
    o.result.Success? ==> |o.requests| > 0 && client(o.requests[|o.requests| - 1]) == Success(o.result.value.raw)
  }

  /** Anthropic.send_conversation, as a value (lines 107-143). */
  function Send(conversation: Conversation, tools: Option<seq<PyFunction>>, kwargs: map<string, Value>, client: Client): SendOutcome {
    var converted := MakeTools(tools);
    if converted.Some? && converted.value.Failure? then SendOutcome(Failure(converted.value.error), [])
    else
      SendFrom(OrDefault(conversation.llmModel, DefaultModel), WireMessages(conversation.messages), tools,
               if converted.None? then None else Some(converted.value.value),
               MergeOptions(kwargs, ToolsKwarg(converted)), client)
  }

  /** Anthropic.send_conversation: one request, then one more after each tool run. */
  method SendConversation(conversation: Conversation, tools: Option<seq<PyFunction>>, kwargs: map<string, Value>,
                          client: Client) returns (r: Result<AssistantMessage, Error>)
    ensures r == Send(conversation, tools, kwargs, client).result
  {
    var model := OrDefault(conversation.llmModel, DefaultModel);
    var messages := new WireLog(WireMessages(conversation.messages));
    var converted := MakeTools(tools);
    if converted.Some? && converted.value.Failure? {
      return Failure(converted.value.error);
    }
    var options := MergeOptions(kwargs, ToolsKwarg(converted));
    var conflict := KeywordConflict("create", options, ["model", "messages"]);
    if conflict.Some? {
      return Failure(conflict.value);
    }
    var sent := client(Request(model, messages.entries, options));
    if sent.Failure? {
      return Failure(sent.error);
    }
    if converted.None? {
      return Failure(Error(TypeError, "'NoneType' object is not iterable"));
    }
    r := RunTools(converted.value.value, tools.value, model, options, client, messages, sent.value,
                  [Request(model, messages.entries, options)]);
  }

  /** The `for tool in converted_tools` loop of send_conversation, on the request's message list. */
  method RunTools(schemas: seq<ToolSchema>, fns: seq<PyFunction>, model: string, options: map<string, Value>,
                  client: Client, messages: WireLog, response: Response, ghost requests: seq<Request>)
    returns (r: Result<AssistantMessage, Error>)
    requires |schemas| == |fns|
    modifies messages
    ensures r == AfterTools(ToolLoop(schemas, fns, model, options, client,
                                     LoopState(old(messages.entries), response, requests, None), |schemas|), model).result
  {
    ghost var start := LoopState(messages.entries, response, requests, None);
    ghost var made := requests;
    var current := response;
    var i := 0;
    while i < |schemas|
      invariant 0 <= i <= |schemas|
      invariant ToolLoop(schemas, fns, model, options, client, start, i) == LoopState(messages.entries, current, made, None)
    {
      ghost var step := TurnStep(LoopState(messages.entries, current, made, None), schemas[i], fns[i], model, options, client);
      var next := ToolTurn(schemas[i], fns[i], model, options, client, messages, current, made);
      assert ToolLoop(schemas, fns, model, options, client, start, i + 1) == step;
      if next.Failure? {
        LoopErrorPersists(schemas, fns, model, options, client, start, i + 1, |schemas|);
        return Failure(next.error);
      }
      current := next.value;
      made := step.requests;
      i := i + 1;
    }
    r := Reply(current, model);
  }

  /** One iteration of the tool loop on the request's message list: the response to continue with, or the exception. */
  method ToolTurn(schema: ToolSchema, fn: PyFunction, model: string, options: map<string, Value>, client: Client,
                  messages: WireLog, response: Response, ghost requests: seq<Request>)
    returns (r: Result<Response, Error>)
    modifies messages
    ensures var step := TurnStep(LoopState(old(messages.entries), response, requests, None), schema, fn, model, options, client);
      && messages.entries == step.log
      && (step.error.None? ==> r == Success(step.response))
      && (step.error.Some? ==> r == Failure(step.error.value))
  {
    var tool := new AnthropicTool(schema, fn.call);
    var outcome := tool.Handle(response, messages);
    if outcome.Fail? {
      return Failure(outcome.error);
    }
    if !tool.IsExecuted() {
      return Success(response);
    }
    r := client(Request(model, messages.entries, options));
  }

  /** Once an iteration of the tool loop raises, later ones change nothing. */
  lemma {:induction false} LoopErrorPersists(schemas: seq<ToolSchema>, fns: seq<PyFunction>, model: string,
                                             options: map<string, Value>, client: Client, start: LoopState, k: nat, n: nat)
    requires k <= n <= |schemas| == |fns|
    requires ToolLoop(schemas, fns, model, options, client, start, k).error.Some?
    ensures ToolLoop(schemas, fns, model, options, client, start, n) == ToolLoop(schemas, fns, model, options, client, start, k)
  {
    if n > k {
      LoopErrorPersists(schemas, fns, model, options, client, start, k, n - 1);
    }
  }

  /**
   * The tool loop keeps the requests made before it and sends each new one
   * with the same model and options.
   */
  lemma {:induction false} ToolLoopFacts(schemas: seq<ToolSchema>, fns: seq<PyFunction>, model: string,
                                         options: map<string, Value>, client: Client, start: LoopState, n: nat)
    requires n <= |schemas| == |fns|
    requires start.error.None?
    ensures var l := ToolLoop(schemas, fns, model, options, client, start, n);
      && |l.requests| >= |start.requests|
      && l.requests[..|start.requests|] == start.requests
      && (forall k :: |start.requests| <= k < |l.requests| ==> l.requests[k].model == model && l.requests[k].options == options)
  {
    if n > 0 {
      ToolLoopFacts(schemas, fns, model, options, client, start, n - 1);
      var prev := ToolLoop(schemas, fns, model, options, client, start, n - 1);
      if prev.error.None? {
        TurnStepFacts(prev, schemas[n - 1], fns[n - 1], model, options, client);
      }
    }
  }

  /** Without an exception, the loop's response is what the vendor returned to the last request made. */
  lemma {:induction false} ToolLoopLastResponse(schemas: seq<ToolSchema>, fns: seq<PyFunction>, model: string,
                                                options: map<string, Value>, client: Client, start: LoopState, n: nat)
    requires n <= |schemas| == |fns|
    requires start.error.None? && |start.requests| > 0 && client(start.requests[|start.requests| - 1]) == Success(start.response)
    ensures var l := ToolLoop(schemas, fns, model, options, client, start, n);
      l.error.None? ==> |l.requests| > 0 && client(l.requests[|l.requests| - 1]) == Success(l.response)
  {
    if n > 0 {
      var prev := ToolLoop(schemas, fns, model, options, client, start, n - 1);
      if prev.error.None? {
        ToolLoopLastResponse(schemas, fns, model, options, client, start, n - 1);
        TurnStepFacts(prev, schemas[n - 1], fns[n - 1], model, options, client);
      }
    }
  }

  /** Without an exception, the tool loop made exactly one request per turn whose tool was asked for. */
  lemma {:induction false} ToolLoopCount(schemas: seq<ToolSchema>, fns: seq<PyFunction>, model: string,
                                         options: map<string, Value>, client: Client, start: LoopState, n: nat)
    requires n <= |schemas| == |fns|
    requires start.error.None?
    ensures var l := ToolLoop(schemas, fns, model, options, client, start, n);
      l.error.None? ==> |l.requests| == |start.requests| + Reruns(schemas, fns, model, options, client, start, n)
  {
    if n > 0 {
      var prev := ToolLoop(schemas, fns, model, options, client, start, n - 1);
      if prev.error.None? {
        ToolLoopCount(schemas, fns, model, options, client, start, n - 1);
        TurnStepCount(prev, schemas[n - 1], fns[n - 1], model, options, client);
      }
    }
  }

  /**
   * One iteration keeps the requests made before it and adds at most one,
   * which carries the caller's model and options and the grown message list;
   * unless it raises, its response is the vendor's answer to that request, or
   * the response it started from when it sent none.
   */
  lemma TurnStepFacts(prev: LoopState, schema: ToolSchema, fn: PyFunction, model: string,
                      options: map<string, Value>, client: Client)
    requires prev.error.None?
    ensures var s := TurnStep(prev, schema, fn, model, options, client);
      && |prev.requests| <= |s.requests| <= |prev.requests| + 1
      && s.requests[..|prev.requests|] == prev.requests
      && (|s.requests| > |prev.requests| ==> s.requests[|prev.requests|] == Request(model, s.log, options))
      && (s.error.None? && |s.requests| > |prev.requests| ==> client(s.requests[|prev.requests|]) == Success(s.response))
      && (s.error.None? && |s.requests| == |prev.requests| ==> s.response == prev.response && s.requests == prev.requests)
  {
    HandleAppends(schema.name, fn.call, ToolState(None, None), prev.response, prev.log, false);
  }

  /**
   * Unless it raises, one iteration adds one request when some block of the
   * response asks for its tool (the tool then ran), and otherwise none, keeping
   * the response.
   */
  lemma TurnStepCount(prev: LoopState, schema: ToolSchema, fn: PyFunction, model: string,
                      options: map<string, Value>, client: Client)
    requires prev.error.None?
    ensures var s := TurnStep(prev, schema, fn, model, options, client);
      && (s.error.None? ==> |s.requests| == |prev.requests| + if NoMatch(schema.name, prev.response.content) then 0 else 1)
      && (s.error.None? && NoMatch(schema.name, prev.response.content) ==> s.response == prev.response && s.requests == prev.requests)
  {
    HandleFreshTool(schema.name, fn.call, prev.response, prev.log, false);
  }

  /** A reply that only talks: no block asks for a tool, and every block has text. */
  predicate PlainReply(response: Response) {
    forall k :: 0 <= k < |response.content| ==> response.content[k].kind != "tool_use" && response.content[k].text.Some?
  }

  /**
   * On a plain reply no tool runs: every turn passes, appends its assistant
   * message and an empty tool_result, and sends nothing, so the response stays
   * the one the loop started from.
   */
  lemma {:induction false} PlainReplyLoop(schemas: seq<ToolSchema>, fns: seq<PyFunction>, model: string,
                                          options: map<string, Value>, client: Client, start: LoopState, n: nat)
    requires n <= |schemas| == |fns|
    requires start.error.None? && PlainReply(start.response)
    ensures var l := ToolLoop(schemas, fns, model, options, client, start, n);
      && l.error.None?
      && l.response == start.response
      && l.requests == start.requests
      && |l.log| == |start.log| + 2 * n
      && l.log[..|start.log|] == start.log
  {
    if n > 0 {
      PlainReplyLoop(schemas, fns, model, options, client, start, n - 1);
      var prev := ToolLoop(schemas, fns, model, options, client, start, n - 1);
      var name := schemas[n - 1].name;
      HandleFreshTool(name, fns[n - 1].call, prev.response, prev.log, false);
      assert forall k :: 0 <= k < |prev.response.content| ==> BlockOk(name, fns[n - 1].call, prev.response.content[k]);
      assert NoMatch(name, prev.response.content);
      var l := ToolLoop(schemas, fns, model, options, client, start, n);
      assert l.log[..|prev.log|] == prev.log;
      assert l.log[..|start.log|] == prev.log[..|start.log|];
    }
  }

  /** The requests and reply of send_conversation from its first `create` call on. */
  lemma SendFromFacts(model: string, messages: seq<WireMessage>, tools: Option<seq<PyFunction>>,
                      schemas: Option<seq<ToolSchema>>, options: map<string, Value>, client: Client)
    requires schemas.Some? ==> tools.Some? && |schemas.value| == |tools.value|
    ensures var o := SendFrom(model, messages, tools, schemas, options, client);
      KeywordConflict("create", options, ["model", "messages"]).None? ==>
        |o.requests| > 0 && o.requests[0] == Request(model, messages, options)
    ensures var o := SendFrom(model, messages, tools, schemas, options, client);
      forall k :: 0 <= k < |o.requests| ==> o.requests[k].model == model && o.requests[k].options == options
    ensures var o := SendFrom(model, messages, tools, schemas, options, client);
      o.result.Success? ==>
        && schemas.Some?
        && o.result.value.role == "assistant"
        && o.result.value.llmProvider == ProviderName
        && o.result.value.llmModel == model
        && FirstText(o.result.value.raw) == Success(o.result.value.text)
  {
    var first := Request(model, messages, options);
    if KeywordConflict("create", options, ["model", "messages"]).None? && client(first).Success? && schemas.Some? {
      var start := LoopState(messages, client(first).value, [first], None);
      ToolLoopFacts(schemas.value, tools.value, model, options, client, start, |schemas.value|);
    }
  }

  /** The Message of a successful send_conversation is built from the client's answer to the last request made. */
  lemma SendFromLast(model: string, messages: seq<WireMessage>, tools: Option<seq<PyFunction>>,
                     schemas: Option<seq<ToolSchema>>, options: map<string, Value>, client: Client)
    requires schemas.Some? ==> tools.Some? && |schemas.value| == |tools.value|
    ensures AnsweredLast(SendFrom(model, messages, tools, schemas, options, client), client)
  {
    var first := Request(model, messages, options);
    if KeywordConflict("create", options, ["model", "messages"]).None? && client(first).Success? && schemas.Some? {
      var start := LoopState(messages, client(first).value, [first], None);
      ToolLoopLastResponse(schemas.value, tools.value, model, options, client, start, |schemas.value|);
    }
  }

  /**
   * A successful send_conversation made the first request plus one request per
   * tool that some response in hand asked for, so at most one per tool.
   */
  lemma SendFromCount(model: string, messages: seq<WireMessage>, tools: Option<seq<PyFunction>>,
                      schemas: Option<seq<ToolSchema>>, options: map<string, Value>, client: Client)
    requires schemas.Some? ==> tools.Some? && |schemas.value| == |tools.value|
    ensures var o := SendFrom(model, messages, tools, schemas, options, client);
      o.result.Success? ==>
        && schemas.Some?
        && client(Request(model, messages, options)).Success?
        && |o.requests| == 1 + Reruns(schemas.value, tools.value, model, options, client,
                                      LoopState(messages, client(Request(model, messages, options)).value,
                                                [Request(model, messages, options)], None), |schemas.value|)
        && |o.requests| <= 1 + |schemas.value|
  {
    var first := Request(model, messages, options);
    if KeywordConflict("create", options, ["model", "messages"]).None? && client(first).Success? && schemas.Some? {
      var start := LoopState(messages, client(first).value, [first], None);
      ToolLoopCount(schemas.value, tools.value, model, options, client, start, |schemas.value|);
    }
  }

  /** Every request a send makes carries the conversation's model or the default, and the same merged options. */
  lemma SendRequests(conversation: Conversation, tools: Option<seq<PyFunction>>, kwargs: map<string, Value>, client: Client)
    ensures var o := Send(conversation, tools, kwargs, client);
      forall k :: 0 <= k < |o.requests| ==>
        o.requests[k].model == OrDefault(conversation.llmModel, DefaultModel)
        && o.requests[k].options == MergeOptions(kwargs, ToolsKwarg(MakeTools(tools)))
  {
    var converted := MakeTools(tools);
    if !(converted.Some? && converted.value.Failure?) {
      var model := OrDefault(conversation.llmModel, DefaultModel);
      var schemas := if converted.None? then None else Some(converted.value.value);
      var options := MergeOptions(kwargs, ToolsKwarg(converted));
      SendFromFacts(model, WireMessages(conversation.messages), tools, schemas, options, client);
    }
  }

  /**
   * A successful send returns an assistant Message stamped "anthropic" with
   * the conversation's model or the default, whose text is the first block's
   * text of the response to the last request made.
   */
  lemma SendReply(conversation: Conversation, tools: Option<seq<PyFunction>>, kwargs: map<string, Value>, client: Client)
    ensures var o := Send(conversation, tools, kwargs, client);
      o.result.Success? ==>
        && o.result.value.role == "assistant"
        && o.result.value.llmProvider == ProviderName
        && o.result.value.llmModel == OrDefault(conversation.llmModel, DefaultModel)
        && FirstText(o.result.value.raw) == Success(o.result.value.text)
  {
    var converted := MakeTools(tools);
    if !(converted.Some? && converted.value.Failure?) {
      var schemas := if converted.None? then None else Some(converted.value.value);
      SendIsSendFrom(conversation, tools, kwargs, client);
      SendFromFacts(OrDefault(conversation.llmModel, DefaultModel), WireMessages(conversation.messages), tools, schemas,
                    MergeOptions(kwargs, ToolsKwarg(converted)), client);
    }
  }

  /** The raw response of a successful send_conversation is what the client returned for the last request made. */
  lemma SendReplyLast(conversation: Conversation, tools: Option<seq<PyFunction>>, kwargs: map<string, Value>, client: Client)
    ensures AnsweredLast(Send(conversation, tools, kwargs, client), client)
  {
    var converted := MakeTools(tools);
    if !(converted.Some? && converted.value.Failure?) {
      var schemas := if converted.None? then None else Some(converted.value.value);
      SendIsSendFrom(conversation, tools, kwargs, client);
      SendFromLast(OrDefault(conversation.llmModel, DefaultModel), WireMessages(conversation.messages), tools, schemas,
                    MergeOptions(kwargs, ToolsKwarg(converted)), client);
    }
  }

  /** Once the tools build, send_conversation is SendFrom on the conversation's model, messages and merged options. */
  lemma SendIsSendFrom(conversation: Conversation, tools: Option<seq<PyFunction>>, kwargs: map<string, Value>, client: Client)
    requires var converted := MakeTools(tools); !(converted.Some? && converted.value.Failure?)
    ensures var converted := MakeTools(tools);
      Send(conversation, tools, kwargs, client)
      == SendFrom(OrDefault(conversation.llmModel, DefaultModel), WireMessages(conversation.messages), tools,
                  if converted.None? then None else Some(converted.value.value),
                  MergeOptions(kwargs, ToolsKwarg(converted)), client)
  {
  }

  /**
   * The first request carries the conversation's (role, text) pairs in order,
   * the conversation's model or the default, and the merged options, with a
   * `tools` entry exactly when a tool list was given.  `tools` is a named
   * parameter of send_conversation, so a Python caller's kwargs never hold it
   * and the `"tools" in kwargs` disjunct only covers maps Python cannot build.
   */
  lemma SendFirstRequest(conversation: Conversation, tools: Option<seq<PyFunction>>, kwargs: map<string, Value>, client: Client)
    requires MakeTools(tools).None? || MakeTools(tools).value.Success?
    requires KeywordConflict("create", MergeOptions(kwargs, ToolsKwarg(MakeTools(tools))), ["model", "messages"]).None?
    ensures var o := Send(conversation, tools, kwargs, client);
      && |o.requests| > 0
      && o.requests[0] == Request(OrDefault(conversation.llmModel, DefaultModel), WireMessages(conversation.messages),
                                  MergeOptions(kwargs, ToolsKwarg(MakeTools(tools))))
      && ("tools" in o.requests[0].options <==> tools.Some? || "tools" in kwargs)
      && (tools.None? ==> o.requests[0].options == DefaultKwargs + kwargs)
  {
    var converted := MakeTools(tools);
    ToolsKwargSchemas(converted);
    SendFromFacts(OrDefault(conversation.llmModel, DefaultModel), WireMessages(conversation.messages), tools,
                  if converted.None? then None else Some(converted.value.value),
                  MergeOptions(kwargs, ToolsKwarg(converted)), client);
  }

  /**
   * Without a tool list, `make_tools` gives None and iterating it raises
   * TypeError after the first request.  (As above, `"tools" in kwargs` never
   * holds for a Python caller.)
   */
  lemma SendWithoutTools(conversation: Conversation, kwargs: map<string, Value>, client: Client)
    ensures var o := Send(conversation, None, kwargs, client);
      && o.result.Failure?
      && |o.requests| <= 1
      && (forall k :: k in o.requests ==> "tools" !in kwargs ==> "tools" !in k.options)
      && (|o.requests| == 1 && client(o.requests[0]).Success? ==> o.result.error == Error(TypeError, "'NoneType' object is not iterable"))
  {
  }

  /** With a tool list, a successful send made one request plus at most one per tool (one per tool that ran). */
  lemma SendRequestCount(conversation: Conversation, tools: seq<PyFunction>, kwargs: map<string, Value>, client: Client)
    ensures var o := Send(conversation, Some(tools), kwargs, client);
      o.result.Success? ==> 1 <= |o.requests| <= 1 + |tools|
  {
    var converted := MakeTools(Some(tools));
    if converted.value.Success? {
      SendFromCount(OrDefault(conversation.llmModel, DefaultModel), WireMessages(conversation.messages), Some(tools),
                    Some(converted.value.value), MergeOptions(kwargs, ToolsKwarg(converted)), client);
    }
  }

  /**
   * When the vendor's first answer is a plain reply, `send_conversation`
   * makes that one request and returns the Message built from it, whatever
   * tools were offered.
   */
  lemma SendPlainReply(conversation: Conversation, tools: seq<PyFunction>, kwargs: map<string, Value>, client: Client)
    requires MakeTools(Some(tools)).value.Success?
    requires KeywordConflict("create", MergeOptions(kwargs, ToolsKwarg(MakeTools(Some(tools)))), ["model", "messages"]).None?
    requires var first := Request(OrDefault(conversation.llmModel, DefaultModel), WireMessages(conversation.messages),
                                  MergeOptions(kwargs, ToolsKwarg(MakeTools(Some(tools)))));
      client(first).Success? && PlainReply(client(first).value)
    ensures var first := Request(OrDefault(conversation.llmModel, DefaultModel), WireMessages(conversation.messages),
                                 MergeOptions(kwargs, ToolsKwarg(MakeTools(Some(tools)))));
      var o := Send(conversation, Some(tools), kwargs, client);
      o.requests == [first] && o.result == Reply(client(first).value, OrDefault(conversation.llmModel, DefaultModel))
  {
    var converted := MakeTools(Some(tools));
    var model := OrDefault(conversation.llmModel, DefaultModel);
    var options := MergeOptions(kwargs, ToolsKwarg(converted));
    var first := Request(model, WireMessages(conversation.messages), options);
    var schemas := converted.value.value;
    PlainReplyLoop(schemas, tools, model, options, client,
                   LoopState(WireMessages(conversation.messages), client(first).value, [first], None), |schemas|);
  }

  /** The request `generate_text` makes (lines 167-175). */
  function TextRequest(prompt: string, llmModel: Option<string>, kwargs: map<string, Value>): (r: Request)
    ensures r.model == OrDefault(llmModel, DefaultModel)
    ensures r.messages == [WireMessage("user", Text(prompt))]
    ensures r.options == MergeOptions(kwargs, map[])
  {
    Request(OrDefault(llmModel, DefaultModel), [WireMessage("user", Text(prompt))], MergeOptions(kwargs, map[]))
  }

  /** Anthropic.generate_text: one user turn, and the first block's text of the reply. */
  function GenerateText(prompt: string, llmModel: Option<string>, kwargs: map<string, Value>, client: Client): (r: Result<string, Error>)
    ensures var req := TextRequest(prompt, llmModel, kwargs);
      r.Success? <==>
        KeywordConflict("create", req.options, ["model", "messages"]).None? && client(req).Success? && FirstText(client(req).value).Success?
    ensures var req := TextRequest(prompt, llmModel, kwargs);
      r.Success? ==> r.value == client(req).value.content[0].text.value
  {
    var request := TextRequest(prompt, llmModel, kwargs);
    match KeywordConflict("create", request.options, ["model", "messages"])
    case Some(e) => Failure(e)
    case None =>
      var response :- client(request);
      FirstText(response)
  }

  /** `m.pop(k, default)`: the value (or default) and the dict without `k`. */
  function Pop(m: map<string, Value>, k: string, default: Value): (r: (Value, map<string, Value>)) {
    (if k in m then m[k] else default, m - {k})
  }

  /**
   * `kwargs.pop("prompt", kwargs.pop("messages", ""))`: the inner pop always
   * runs, so both keys are removed and "prompt" wins over "messages".
   */
  function StructuredPrompt(kwargs: map<string, Value>): (r: (Value, map<string, Value>))
    ensures r.0 == if "prompt" in kwargs then kwargs["prompt"] else if "messages" in kwargs then kwargs["messages"] else PyStr("")
    ensures r.1 == kwargs - {"prompt", "messages"}
  {
    var (fallback, rest) := Pop(kwargs, "messages", PyStr(""));
    Pop(rest, "prompt", fallback)
  }

  /** The request `structured_response` hands to the structured client (lines 149-161). */
  function StructuredRequest(llmModel: Option<string>, kwargs: map<string, Value>): (r: Request)
    ensures r.model == OrDefault(llmModel, DefaultModel)
    ensures r.messages == [WireMessage("user", RawContent(StructuredPrompt(kwargs).0))]
    ensures "prompt" !in r.options && "messages" !in r.options
    ensures r.options == MergeOptions(kwargs - {"prompt", "messages"}, map[])
  {
    var (prompt, rest) := StructuredPrompt(kwargs);
    Request(OrDefault(llmModel, DefaultModel), [WireMessage("user", RawContent(prompt))], MergeOptions(rest, map[]))
  }

  /** The instructor-patched client: the request plus the response model's name, to the validated-to-be value. */
  type StructuredClient = (Request, string) -> Result<Value, Error>

  /**
   * Anthropic.structured_response up to `model_validate`.  The call names
   * `model`, `messages` and `response_model` explicitly; "messages" has been
   * popped and `response_model` is a named parameter of structured_response,
   * so for a Python caller only a "model" keyword can clash and raise
   * TypeError before the client runs.
   */
  function StructuredResponse(responseModel: string, llmModel: Option<string>, kwargs: map<string, Value>,
                              client: StructuredClient): (r: Result<Value, Error>)
    ensures var req := StructuredRequest(llmModel, kwargs);
      KeywordConflict("create", req.options, ["model", "messages", "response_model"]).Some? <==>
        "model" in kwargs || "response_model" in kwargs
    ensures "model" in kwargs ==> r == Failure(MultipleValues("create", "model"))
    ensures "model" in kwargs || "response_model" in kwargs ==> r.Failure? && r.error.kind == TypeError
    ensures var req := StructuredRequest(llmModel, kwargs);
      KeywordConflict("create", req.options, ["model", "messages", "response_model"]).None? ==> r == client(req, responseModel)
  {
    var request := StructuredRequest(llmModel, kwargs);
    assert "model" in request.options <==> "model" in kwargs;
    assert "response_model" in request.options <==> "response_model" in kwargs;
    match KeywordConflict("create", request.options, ["model", "messages", "response_model"])
    case Some(e) => Failure(e)
    case None => client(request, responseModel)
  }
}
