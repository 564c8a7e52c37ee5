/** The Bedrock chat adapter: how it shapes a Converse request from chat
    messages, OpenAI-style tools and the sampling settings, and how it reads
    the Converse answer back into tool calls or text.

    The Bedrock runtime is `BedrockRuntime`, an oracle that answers each
    request through a fixed function and logs what it was sent. */
module BedrockLlm {
  import opened Wrappers
  import opened JsonValue
  import Strings
  import Seqs

  /** The model used when the configuration names none. */
  const DefaultModel: string := "anthropic.claude-3-5-sonnet-20240620-v1:0"
  /** The tool choice `generate_response` uses when the caller gives none. */
  const DefaultToolChoice: string := "auto"

  /** A chat message: its `role` and `content` entries. */
  datatype Message = Message(role: string, content: string)

  datatype LlmError =
    | Malformed                 // a KeyError, TypeError or AttributeError on a tool or an answer
    | Transport(message: string) // the `converse` call raised

  // ---------------------------------------------------------------------
  // _format_messages

  predicate IsSystem(m: Message)
  {
    Strings.Lower(m.role) == "system"
  }

  predicate IsTurn(m: Message)
  {
    var role := Strings.Lower(m.role);
    role == "user" || role == "assistant"
  }

  function TextBlock(content: string): Json
  {
    Obj([("text", Str(content))])
  }

  /** A user or assistant turn, its role lower-cased. */
  function Turn(m: Message): Json
  {
    Obj([("role", Str(Strings.Lower(m.role))), ("content", Arr([TextBlock(m.content)]))])
  }

  /** The `system` entries: one text block per system message, in order. */
  function SystemBlocks(ms: seq<Message>): seq<Json>
  {
    if |ms| == 0 then []
    else
      var last := ms[|ms| - 1];
      SystemBlocks(ms[..|ms| - 1]) + (if IsSystem(last) then [TextBlock(last.content)] else [])
  }

  /** The `messages` entries: one per user or assistant message, in order. */
  function Turns(ms: seq<Message>): seq<Json>
  {
    if |ms| == 0 then []
    else
      var last := ms[|ms| - 1];
      Turns(ms[..|ms| - 1]) + (if IsTurn(last) then [Turn(last)] else [])
  }

  /** Splitting a conversation anywhere splits its system blocks at the same
      place, so they keep the order of the messages. */
  lemma {:induction false} SystemBlocksAppend(a: seq<Message>, b: seq<Message>)
    ensures SystemBlocks(a + b) == SystemBlocks(a) + SystemBlocks(b)
    decreases |b|
  {
    if |b| == 0 {
      assert a + b == a;
    } else {
      assert (a + b)[..|a + b| - 1] == a + b[..|b| - 1];
      assert (a + b)[|a + b| - 1] == b[|b| - 1];
      SystemBlocksAppend(a, b[..|b| - 1]);
    }
  }

  /** The same for turns: messages with any other role are dropped and the
      rest keep their order. */
  lemma {:induction false} TurnsAppend(a: seq<Message>, b: seq<Message>)
    ensures Turns(a + b) == Turns(a) + Turns(b)
    decreases |b|
  {
    if |b| == 0 {
      assert a + b == a;
    } else {
      assert (a + b)[..|a + b| - 1] == a + b[..|b| - 1];
      assert (a + b)[|a + b| - 1] == b[|b| - 1];
      TurnsAppend(a, b[..|b| - 1]);
    }
  }

  /** There are system blocks exactly when some message has the system role. */
  lemma {:induction false} SystemBlocksPresent(ms: seq<Message>)
    ensures SystemBlocks(ms) != [] <==> exists i :: 0 <= i < |ms| && IsSystem(ms[i])
  {
    if |ms| > 0 {
      var init := ms[..|ms| - 1];
      SystemBlocksPresent(init);
      assert forall i :: 0 <= i < |init| ==> init[i] == ms[i];
      if exists i :: 0 <= i < |ms| && IsSystem(ms[i]) {
        var i :| 0 <= i < |ms| && IsSystem(ms[i]);
        if i < |init| {
          assert IsSystem(init[i]);
        }
      }
    }
  }

  /** `{"messages": turns}`, with `"system": system` added when there is any. */
  function Fragment(turns: seq<Json>, system: seq<Json>): Dict
  {
    [("messages", Arr(turns))] + (if system != [] then [("system", Arr(system))] else [])
  }

  lemma FragmentKeys(turns: seq<Json>, system: seq<Json>)
    ensures Get(Fragment(turns, system), "messages") == Some(Arr(turns))
    ensures Keys(Fragment(turns, system)) == {"messages"} + (if system != [] then {"system"} else {})
    ensures system != [] ==> Get(Fragment(turns, system), "system") == Some(Arr(system))
  {
    var r := Fragment(turns, system);
    if system != [] {
      assert r[1..][1..] == [];
      assert Keys(r[1..][1..]) == {};
      assert Keys(r[1..]) == {"system"};
    } else {
      assert r[1..] == [];
    }
  }

  /** The request fragment `_format_messages` returns. */
  function FormattedRequest(ms: seq<Message>): (req: Dict)
    ensures Get(req, "messages") == Some(Arr(Turns(ms)))
  {
    Fragment(Turns(ms), SystemBlocks(ms))
  }

  /** "messages" is always there; "system" is there exactly when some message
      has the system role, and then holds the system blocks. */
  lemma FormattedRequestKeys(ms: seq<Message>)
    ensures Get(FormattedRequest(ms), "messages") == Some(Arr(Turns(ms)))
    ensures "system" in Keys(FormattedRequest(ms)) <==> SystemBlocks(ms) != []
    ensures "system" in Keys(FormattedRequest(ms)) ==> Get(FormattedRequest(ms), "system") == Some(Arr(SystemBlocks(ms)))
    ensures Keys(FormattedRequest(ms)) <= {"messages", "system"}
  {
    FragmentKeys(Turns(ms), SystemBlocks(ms));
  }

  /** The loop of `_format_messages`. */
  method FormatMessages(ms: seq<Message>) returns (req: Dict)
    ensures req == FormattedRequest(ms)
  {
    var formattedMessages: seq<Json> := [];
    var systemContent: seq<Json> := [];
    var i := 0;
    while i < |ms|
      invariant 0 <= i <= |ms|
      invariant formattedMessages == Turns(ms[..i])
      invariant systemContent == SystemBlocks(ms[..i])
    {
      assert ms[..i + 1][..i] == ms[..i];
      var role := Strings.Lower(ms[i].role);
      if role == "system" {
        systemContent := systemContent + [TextBlock(ms[i].content)];
      } else if role == "user" || role == "assistant" {
        formattedMessages := formattedMessages + [Obj([("role", Str(role)), ("content", Arr([TextBlock(ms[i].content)]))])];
      }
      i := i + 1;
    }
    assert ms[..i] == ms;
    req := Put([], "messages", Arr(formattedMessages));
    if systemContent != [] {
      req := Put(req, "system", Arr(systemContent));
    }
  }

  // ---------------------------------------------------------------------
  // _prepare_inference_config

  /** The Converse names of the three sampling settings. */
  function InferenceConfig(kwargs: Dict): (cfg: Dict)
    ensures Get(cfg, "maxTokens") == Get(kwargs, "max_tokens")
    ensures Get(cfg, "temperature") == Get(kwargs, "temperature")
    ensures Get(cfg, "topP") == Get(kwargs, "top_p")
    ensures Keys(cfg) <= {"maxTokens", "temperature", "topP"}
    ensures cfg == [] <==>
      "max_tokens" !in Keys(kwargs) && "temperature" !in Keys(kwargs) && "top_p" !in Keys(kwargs)
  {
    var c0: Dict := [];
    var c1 := if "max_tokens" in Keys(kwargs) then Put(c0, "maxTokens", Get(kwargs, "max_tokens").value) else c0;
    var c2 := if "temperature" in Keys(kwargs) then Put(c1, "temperature", Get(kwargs, "temperature").value) else c1;
    var c3 := if "top_p" in Keys(kwargs) then Put(c2, "topP", Get(kwargs, "top_p").value) else c2;
    c3
  }

  // ---------------------------------------------------------------------
  // _convert_tool_format

  /** A property's schema: its type, "string" when not given, and its
      description, "" when not given. */
  function PropertySchema(details: Json): (r: Option<Json>)
    ensures r.Some? <==> details.Obj?
    ensures r.Some? ==> Field(r.value, "type") == Some(GetOr(details.fields, "type", Str("string")))
    ensures r.Some? ==> Field(r.value, "description") == Some(GetOr(details.fields, "description", Str("")))
  {
    if details.Obj? then
      Some(Obj([("type", GetOr(details.fields, "type", Str("string"))),
                ("description", GetOr(details.fields, "description", Str("")))]))
    else None
  }

  /** One property with its converted schema. */
  function PropertyEntry(prop: (string, Json)): Option<(string, Json)>
  {
    match PropertySchema(prop.1)
    case Some(schema) => Some((prop.0, schema))
    case None => None
  }

  /** The `properties` dict of the converted schema, one entry per property
      in the order of the input; None if some property's details are not a
      dict. The names of a dict's items are distinct, so each assignment in
      the loop adds a new entry at the end. */
  function PropertySchemas(props: Dict): Option<Dict>
  {
    Seqs.MapAll(PropertyEntry, props)
  }

  /** Every property is converted in place: the i-th entry of the result is
      the i-th property with its schema. */
  lemma PropertySchemasAt(props: Dict)
    requires PropertySchemas(props).Some?
    ensures |PropertySchemas(props).value| == |props|
    ensures forall i :: 0 <= i < |props| ==>
      PropertySchemas(props).value[i].0 == props[i].0 && Some(PropertySchemas(props).value[i].1) == PropertySchema(props[i].1)
  {
    Seqs.MapAllAt(PropertyEntry, props);
  }

  /** The conversion succeeds exactly when every property's details are a dict. */
  lemma PropertySchemasDefined(props: Dict)
    ensures PropertySchemas(props).Some? <==> forall i :: 0 <= i < |props| ==> props[i].1.Obj?
  {
    Seqs.MapAllDefined(PropertyEntry, props);
  }

  /** What a tool in the wrong shape raises is not modelled beyond failing. */
  function FunctionOf(tool: Json): Option<Dict>
  {
    match Field(tool, "function")
    case Some(Obj(f)) => Some(f)
    case _ => None
  }

  /** The converted `toolSpec` of a function tool whose name, description,
      required list and property schemas are known. */
  function ToolSpec(name: Json, description: Json, required: Json, schemas: Dict): Json
  {
    Obj([("toolSpec", Obj([
      ("name", name),
      ("description", description),
      ("inputSchema", Obj([("json", Obj([
        ("type", Str("object")),
        ("properties", Obj(schemas)),
        ("required", required)]))]))]))])
  }

  /** A converted tool spec holds the name, the description and the required
      list it was built from, an object schema and the property schemas. */
  lemma ToolSpecReadsBack(name: Json, description: Json, required: Json, schemas: Dict)
    ensures var spec := Field(ToolSpec(name, description, required, schemas), "toolSpec");
      var json := Sub(Sub(spec, "inputSchema"), "json");
      && Sub(spec, "name") == Some(name)
      && Sub(spec, "description") == Some(description)
      && Sub(json, "type") == Some(Str("object"))
      && Sub(json, "properties") == Some(Obj(schemas))
      && Sub(json, "required") == Some(required)
  {
    var spec := [("name", name), ("description", description),
      ("inputSchema", Obj([("json", Obj([("type", Str("object")), ("properties", Obj(schemas)), ("required", required)]))]))];
    GetFirstMatch(spec, 1, "description");
    GetFirstMatch(spec, 2, "inputSchema");
    var json := [("type", Str("object")), ("properties", Obj(schemas)), ("required", required)];
    GetFirstMatch(json, 1, "properties");
    GetFirstMatch(json, 2, "required");
  }

  /** One tool: None for a tool whose type is not "function", the converted
      spec otherwise, with description defaulting to "" and required to []. */
  function ConvertTool(tool: Json): (r: Result<Option<Json>, LlmError>)
    ensures r.Success? && r.value.None? <==>
      Field(tool, "type").Some? && Field(tool, "type").value != Str("function")
    ensures r.Success? && r.value.Some? ==>
      && Field(tool, "type") == Some(Str("function"))
      && FunctionOf(tool).Some?
      && Get(FunctionOf(tool).value, "name").Some?
      && Get(FunctionOf(tool).value, "parameters").Some?
      && Get(FunctionOf(tool).value, "parameters").value.Obj?
      && var fn := FunctionOf(tool).value;
         var parameters := Get(fn, "parameters").value.fields;
         && GetOr(parameters, "properties", Obj([])).Obj?
         && PropertySchemas(GetOr(parameters, "properties", Obj([])).fields).Some?
         && r.value.value == ToolSpec(Get(fn, "name").value, GetOr(fn, "description", Str("")),
                                      GetOr(parameters, "required", Arr([])),
                                      PropertySchemas(GetOr(parameters, "properties", Obj([])).fields).value)
    ensures
      (&& Field(tool, "type") == Some(Str("function"))
       && FunctionOf(tool).Some?
       && Get(FunctionOf(tool).value, "name").Some?
       && Get(FunctionOf(tool).value, "parameters").Some?
       && Get(FunctionOf(tool).value, "parameters").value.Obj?
       && GetOr(Get(FunctionOf(tool).value, "parameters").value.fields, "properties", Obj([])).Obj?
       && PropertySchemas(GetOr(Get(FunctionOf(tool).value, "parameters").value.fields, "properties", Obj([])).fields).Some?)
      ==> r.Success? && r.value.Some?
  {
    match Field(tool, "type")
    case None => Failure(Malformed)
    case Some(kind) =>
      if kind != Str("function") then Success(None)
      else match FunctionOf(tool)
        case None => Failure(Malformed)
        case Some(fn) =>
          match (Get(fn, "name"), Get(fn, "parameters"))
          case (Some(name), Some(Obj(parameters))) =>
            (match GetOr(parameters, "properties", Obj([]))
             case Obj(props) =>
               (match PropertySchemas(props)
                case Some(schemas) =>
                  Success(Some(ToolSpec(name, GetOr(fn, "description", Str("")),
                                        GetOr(parameters, "required", Arr([])), schemas)))
                case None => Failure(Malformed))
             case _ => Failure(Malformed))
          case _ => Failure(Malformed)
  }

  /** A function tool that gives only a name and empty parameters gets the
      defaults: empty description, no required names, no properties. */
  lemma ConvertToolDefaults(name: Json)
    ensures ConvertTool(Obj([("type", Str("function")), ("function", Obj([("name", name), ("parameters", Obj([]))]))]))
      == Success(Some(ToolSpec(name, Str(""), Arr([]), [])))
  {
    var fn: Dict := [("name", name), ("parameters", Obj([]))];
    GetFirstMatch(fn, 1, "parameters");
  }

  /** `_convert_tool_format`: the converted function tools, in order. */
  function ToolSpecs(tools: seq<Json>): (r: Result<seq<Json>, LlmError>)
    ensures r.Success? <==> forall i :: 0 <= i < |tools| ==> ConvertTool(tools[i]).Success?
    ensures r.Success? ==> |r.value| <= |tools|
  {
    Seqs.CollectAllSucceeds(ConvertTool, tools);
    Seqs.CollectAll(ConvertTool, tools)
  }

  /** Tools that are not functions are skipped and the others keep their
      order: converting a concatenation concatenates the conversions. */
  lemma ToolSpecsAppend(a: seq<Json>, b: seq<Json>)
    requires ToolSpecs(a).Success? && ToolSpecs(b).Success?
    ensures ToolSpecs(a + b) == Success(ToolSpecs(a).value + ToolSpecs(b).value)
  {
    Seqs.CollectAllAppend(ConvertTool, a, b);
  }

  /** The inner loop of `_convert_tool_format` over one tool's properties. */
  method ConvertProperties(props: Dict) returns (r: Option<Dict>)
    ensures r == PropertySchemas(props)
  {
    var schemas: Dict := [];
    var i := 0;
    while i < |props|
      invariant 0 <= i <= |props|
      invariant PropertySchemas(props[..i]) == Some(schemas)
    {
      assert props[..i + 1][..i] == props[..i] && props[..i + 1][i] == props[i];
      var schema := PropertySchema(props[i].1);
      if schema.None? {
        assert PropertyEntry(props[i]).None?;
        Seqs.MapAllFailFrom(PropertyEntry, props, i + 1);
        return None;
      }
      assert PropertyEntry(props[i]) == Some((props[i].0, schema.value));
      schemas := schemas + [(props[i].0, schema.value)];
      i := i + 1;
    }
    assert props[..i] == props;
    r := Some(schemas);
  }

  /** `_convert_tool_format` with its two loops. */
  method ConvertToolFormat(tools: seq<Json>) returns (r: Result<seq<Json>, LlmError>)
    ensures r == ToolSpecs(tools)
  {
    var newTools: seq<Json> := [];
    var i := 0;
    while i < |tools|
      invariant 0 <= i <= |tools|
      invariant ToolSpecs(tools[..i]) == Success(newTools)
    {
      assert tools[..i + 1][..i] == tools[..i];
      assert tools[..i + 1][i] == tools[i];
      var converted := ConvertToolWithLoop(tools[i]);
      if converted.Failure? {
        Seqs.CollectAllFailFrom(ConvertTool, tools, i + 1);
        return Failure(converted.error);
      }
      if converted.value.Some? {
        newTools := newTools + [converted.value.value];
      } else {
        assert newTools + [] == newTools;
      }
      i := i + 1;
    }
    assert tools[..i] == tools;
    r := Success(newTools);
  }

  /** One tool, converting its properties with the inner loop. */
  method ConvertToolWithLoop(tool: Json) returns (r: Result<Option<Json>, LlmError>)
    ensures r == ConvertTool(tool)
  {
    var kind := Field(tool, "type");
    if kind.None? {
      return Failure(Malformed);
    }
    if kind.value != Str("function") {
      return Success(None);
    }
    var fn := FunctionOf(tool);
    if fn.None? {
      return Failure(Malformed);
    }
    var name := Get(fn.value, "name");
    var parameters := Get(fn.value, "parameters");
    if name.None? || parameters.None? || !parameters.value.Obj? {
      return Failure(Malformed);
    }
    var props := GetOr(parameters.value.fields, "properties", Obj([]));
    if !props.Obj? {
      return Failure(Malformed);
    }
    var schemas := ConvertProperties(props.fields);
    if schemas.None? {
      return Failure(Malformed);
    }
    r := Success(Some(ToolSpec(name.value, GetOr(fn.value, "description", Str("")),
                               GetOr(parameters.value.fields, "required", Arr([])), schemas.value)));
  }

  // ---------------------------------------------------------------------
  // _parse_response

  /** What the adapter returns: a dict of tool calls, or the answer's text. */
  datatype Reply = ToolCalls(calls: seq<Json>) | Text(text: string)

  /** One content block in the tool branch: a `{name, arguments}` call for a
      block holding "toolUse", None for any other block. */
  function ToolCallOf(block: Json): (r: Result<Option<Json>, LlmError>)
    ensures r.Success? && r.value.None? <==> block.Obj? && "toolUse" !in Keys(block.fields)
    ensures r.Success? && r.value.Some? ==>
      && Sub(Field(block, "toolUse"), "name").Some?
      && Field(r.value.value, "name") == Sub(Field(block, "toolUse"), "name")
      && Field(r.value.value, "arguments") == Sub(Field(block, "toolUse"), "input")
      && Sub(Field(block, "toolUse"), "input").Some?
    ensures block.Obj? && Sub(Field(block, "toolUse"), "name").Some? && Sub(Field(block, "toolUse"), "input").Some? ==>
      r == Success(Some(Obj([("name", Sub(Field(block, "toolUse"), "name").value),
                             ("arguments", Sub(Field(block, "toolUse"), "input").value)])))
  {
    if !block.Obj? then Failure(Malformed)
    else if "toolUse" !in Keys(block.fields) then Success(None)
    else
      match (Sub(Field(block, "toolUse"), "name"), Sub(Field(block, "toolUse"), "input"))
      case (Some(name), Some(input)) => Success(Some(Obj([("name", name), ("arguments", input)])))
      case _ => Failure(Malformed)
  }

  /** The tool calls of a list of content blocks, in block order. */
  function ToolCallsOf(blocks: seq<Json>): (r: Result<seq<Json>, LlmError>)
    ensures r.Success? <==> forall i :: 0 <= i < |blocks| ==> ToolCallOf(blocks[i]).Success?
    ensures r.Success? ==> |r.value| <= |blocks|
  {
    Seqs.CollectAllSucceeds(ToolCallOf, blocks);
    Seqs.CollectAll(ToolCallOf, blocks)
  }

  /** Blocks without "toolUse" contribute nothing and the calls keep the
      blocks' order. */
  lemma ToolCallsAppend(a: seq<Json>, b: seq<Json>)
    requires ToolCallsOf(a).Success? && ToolCallsOf(b).Success?
    ensures ToolCallsOf(a + b) == Success(ToolCallsOf(a).value + ToolCallsOf(b).value)
  {
    Seqs.CollectAllAppend(ToolCallOf, a, b);
  }

  /** The loop of the tool branch of `_parse_response`. */
  method CollectToolCalls(blocks: seq<Json>) returns (r: Result<seq<Json>, LlmError>)
    ensures r == ToolCallsOf(blocks)
  {
    var calls: seq<Json> := [];
    var i := 0;
    while i < |blocks|
      invariant 0 <= i <= |blocks|
      invariant ToolCallsOf(blocks[..i]) == Success(calls)
    {
      assert blocks[..i + 1][..i] == blocks[..i];
      var call := ToolCallOf(blocks[i]);
      if call.Failure? {
        Seqs.CollectAllFailFrom(ToolCallOf, blocks, i + 1);
        return Failure(call.error);
      }
      if call.value.Some? {
        calls := calls + [call.value.value];
      } else {
        assert calls + [] == calls;
      }
      i := i + 1;
    }
    assert blocks[..i] == blocks;
    r := Success(calls);
  }

  /** The text of one block, if it holds "text" (which `join` needs to be a string). */
  function TextOf(block: Json): (r: Result<Option<string>, LlmError>)
    ensures r.Success? && r.value.None? <==> block.Obj? && "text" !in Keys(block.fields)
    ensures r.Success? && r.value.Some? ==> Field(block, "text") == Some(Str(r.value.value))
    ensures block.Obj? && Get(block.fields, "text").Some? && Get(block.fields, "text").value.Str? ==>
      r == Success(Some(Get(block.fields, "text").value.s))
  {
    if !block.Obj? then Failure(Malformed)
    else match Get(block.fields, "text")
      case None => Success(None)
      case Some(Str(s)) => Success(Some(s))
      case Some(_) => Failure(Malformed)
  }

  /** The texts of the blocks that hold "text", in block order. */
  function TextBlocks(blocks: seq<Json>): (r: Result<seq<string>, LlmError>)
    ensures r.Success? <==> forall i :: 0 <= i < |blocks| ==> TextOf(blocks[i]).Success?
    ensures r.Success? ==> |r.value| <= |blocks|
  {
    Seqs.CollectAllSucceeds(TextOf, blocks);
    Seqs.CollectAll(TextOf, blocks)
  }

  /** Blocks without text are skipped and the texts keep the blocks' order. */
  lemma TextBlocksAppend(a: seq<Json>, b: seq<Json>)
    requires TextBlocks(a).Success? && TextBlocks(b).Success?
    ensures TextBlocks(a + b) == Success(TextBlocks(a).value + TextBlocks(b).value)
  {
    Seqs.CollectAllAppend(TextOf, a, b);
  }

  /** The non-tool branch: the texts joined by single spaces, or "" when the
      answer has no output, message or content. */
  function TextReply(response: Json): (r: Result<string, LlmError>)
    ensures response.Obj? && "output" !in Keys(response.fields) ==> r == Success("")
    ensures (Field(response, "output").Some? && Field(response, "output").value.Obj?
             && "message" !in Keys(Field(response, "output").value.fields)) ==> r == Success("")
    ensures var message := Sub(Field(response, "output"), "message");
      message.Some? && message.value.Obj? && "content" !in Keys(message.value.fields) ==> r == Success("")
    ensures var content := Sub(Sub(Field(response, "output"), "message"), "content");
      content.Some? && content.value.Arr? && TextBlocks(content.value.items).Success? ==>
        r == Success(Strings.Join(" ", TextBlocks(content.value.items).value))
  {
    if !response.Obj? then Failure(Malformed)
    else match Get(response.fields, "output")
      case None => Success("")
      case Some(output) =>
        if !output.Obj? then Failure(Malformed)
        else match Get(output.fields, "message")
          case None => Success("")
          case Some(message) =>
            if !message.Obj? then Failure(Malformed)
            else match Get(message.fields, "content")
              case None => Success("")
              case Some(Arr(blocks)) =>
                (match TextBlocks(blocks)
                 case Success(texts) => Success(Strings.Join(" ", texts))
                 case Failure(e) => Failure(e))
              case Some(_) => Failure(Malformed)
  }

  /** `_parse_response`. With tools it reads `output.message.content`, which
      must be there, and returns the tool calls of its blocks (none for
      empty content); without tools it returns the joined text. */
  function ParseResponse(response: Json, toolsGiven: bool): (r: Result<Reply, LlmError>)
    ensures toolsGiven && r.Success? ==> r.value.ToolCalls?
    ensures !toolsGiven && r.Success? ==> r.value.Text?
    ensures toolsGiven ==> (r.Success? ==> Sub(Sub(Field(response, "output"), "message"), "content").Some?)
    ensures var content := Sub(Sub(Field(response, "output"), "message"), "content");
      toolsGiven && content.Some? ==>
        && (!Truthy(content.value) ==> r == Success(ToolCalls([])))
        && (content.value.Arr? && content.value.items != [] ==>
              && (ToolCallsOf(content.value.items).Success? ==> r == Success(ToolCalls(ToolCallsOf(content.value.items).value)))
              && (ToolCallsOf(content.value.items).Failure? ==> r.Failure?))
    ensures !toolsGiven ==>
      && (r.Success? <==> TextReply(response).Success?)
      && (r.Success? ==> r.value == Text(TextReply(response).value))
  {
    if toolsGiven then
      match Sub(Sub(Field(response, "output"), "message"), "content")
      case None => Failure(Malformed)
      case Some(content) =>
        if !Truthy(content) then Success(ToolCalls([]))
        else if !content.Arr? then Failure(Malformed)
        else match ToolCallsOf(content.items)
          case Success(calls) => Success(ToolCalls(calls))
          case Failure(e) => Failure(e)
    else
      match TextReply(response)
      case Success(text) => Success(Text(text))
      case Failure(e) => Failure(e)
  }

  /** Two text blocks come back as their texts with one space between. */
  lemma TextReplyJoinsWithSpace(t1: string, t2: string, other: Json)
    ensures TextReply(Obj([("output", Obj([("message", Obj([("content",
      Arr([TextBlock(t1), Obj([("toolUse", other)]), TextBlock(t2)]))]))]))]))
      == Success(t1 + " " + t2)
  {
    var b0, b1, b2 := TextBlock(t1), Obj([("toolUse", other)]), TextBlock(t2);
    assert TextOf(b0) == Success(Some(t1));
    assert TextOf(b1) == Success(None);
    assert TextOf(b2) == Success(Some(t2));
    Seqs.CollectAllOne(TextOf, b0);
    Seqs.CollectAllOne(TextOf, b1);
    Seqs.CollectAllOne(TextOf, b2);
    Seqs.CollectAllAppend(TextOf, [b0], [b1]);
    assert [b0] + [b1] == [b0, b1];
    Seqs.CollectAllAppend(TextOf, [b0, b1], [b2]);
    assert [b0, b1] + [b2] == [b0, b1, b2];
    var none: seq<string> := [];
    assert [t1] + none == [t1] && [t1] + [t2] == [t1, t2];
    assert TextBlocks([b0, b1, b2]) == Success([t1, t2]);
    assert [t1, t2][1..] == [t2];
    assert Strings.Join(" ", [t1, t2]) == t1 + " " + t2;
  }

  // ---------------------------------------------------------------------
  // generate_response

  /** A tool list that is given and not empty (a truthy `tools`). */
  predicate ToolsGiven(tools: Option<seq<Json>>)
  {
    tools.Some? && tools.value != []
  }

  /** An `auto` choice for the choice "auto", an `any` choice for every other. */
  function ToolChoice(toolChoice: string): Json
  {
    if toolChoice == "auto" then Obj([("auto", Obj([]))]) else Obj([("any", Obj([]))])
  }

  function ToolConfig(specs: seq<Json>, toolChoice: string): Json
  {
    Obj([("tools", Arr(specs)), ("toolChoice", ToolChoice(toolChoice))])
  }

  /** The model id followed by the formatted messages. */
  function BaseRequest(model: string, messages: seq<Message>): Dict
  {
    [("modelId", Str(model))] + FormattedRequest(messages)
  }

  /** Adds `inferenceConfig` when the renamed settings are not empty. */
  function WithInference(request: Dict, kwargs: Dict): Dict
  {
    var cfg := InferenceConfig(kwargs);
    if cfg != [] then Put(request, "inferenceConfig", Obj(cfg)) else request
  }

  /** Sets `toolConfig` to the converted tools and the choice when tools are given. */
  function WithTools(request: Dict, tools: Option<seq<Json>>, toolChoice: string): Result<Dict, LlmError>
  {
    if ToolsGiven(tools) then
      match ToolSpecs(tools.value)
      case Success(specs) => Success(Put(request, "toolConfig", ToolConfig(specs, toolChoice)))
      case Failure(e) => Failure(e)
    else Success(request)
  }

  /** The keyword arguments `converse` is called with. Building them fails
      only on a tool list that cannot be converted. */
  function ConverseRequest(model: string, messages: seq<Message>, tools: Option<seq<Json>>,
                           toolChoice: string, kwargs: Dict): (r: Result<Dict, LlmError>)
    ensures r.Failure? <==> ToolsGiven(tools) && ToolSpecs(tools.value).Failure?
  {
    WithToolsShape(BaseRequest(model, messages), tools, toolChoice);
    var staged := WithTools(BaseRequest(model, messages), tools, toolChoice);
    if staged.Failure? then Failure(staged.error) else Success(WithInference(staged.value, kwargs))
  }

  /** The request starts with the model and the formatted messages and has
      no other key. */
  lemma BaseRequestShape(model: string, messages: seq<Message>)
    ensures Get(BaseRequest(model, messages), "modelId") == Some(Str(model))
    ensures Get(BaseRequest(model, messages), "messages") == Some(Arr(Turns(messages)))
    ensures "system" in Keys(BaseRequest(model, messages)) <==> SystemBlocks(messages) != []
    ensures Keys(BaseRequest(model, messages)) <= {"modelId", "messages", "system"}
  {
    FormattedRequestKeys(messages);
    var base := BaseRequest(model, messages);
    var rest := FormattedRequest(messages);
    assert base[0] == ("modelId", Str(model));
    assert base[1..] == rest;
    assert Keys(base) == {"modelId"} + Keys(rest);
    assert Get(base, "messages") == Get(rest, "messages");
  }

  /** Adding the inference configuration touches no other key. */
  lemma WithInferenceShape(request: Dict, kwargs: Dict)
    ensures Keys(WithInference(request, kwargs)) ==
      Keys(request) + (if InferenceConfig(kwargs) != [] then {"inferenceConfig"} else {})
  {
  }

  lemma WithInferenceKeeps(request: Dict, kwargs: Dict, k: string)
    requires k != "inferenceConfig"
    ensures Get(WithInference(request, kwargs), k) == Get(request, k)
  {
    if InferenceConfig(kwargs) != [] {
      PutKeepsOthers(request, "inferenceConfig", Obj(InferenceConfig(kwargs)), k);
    }
  }

  lemma ToolConfigChoice(specs: seq<Json>, toolChoice: string)
    ensures Field(ToolConfig(specs, toolChoice), "tools") == Some(Arr(specs))
    ensures Field(ToolConfig(specs, toolChoice), "toolChoice") == Some(ToolChoice(toolChoice))
  {
    GetFirstMatch(ToolConfig(specs, toolChoice).fields, 1, "toolChoice");
  }

  /** Adding the tools fails only on a tool list that cannot be converted,
      adds `toolConfig` exactly when tools are given, and touches no other key. */
  lemma WithToolsShape(request: Dict, tools: Option<seq<Json>>, toolChoice: string)
    ensures WithTools(request, tools, toolChoice).Failure? <==> ToolsGiven(tools) && ToolSpecs(tools.value).Failure?
    ensures var staged := WithTools(request, tools, toolChoice);
      staged.Success? ==>
        && Keys(staged.value) == Keys(request) + (if ToolsGiven(tools) then {"toolConfig"} else {})
        && (ToolsGiven(tools) ==> Sub(Get(staged.value, "toolConfig"), "toolChoice") == Some(ToolChoice(toolChoice)))
        && (ToolsGiven(tools) ==> Sub(Get(staged.value, "toolConfig"), "tools") == Some(Arr(ToolSpecs(tools.value).value)))
  {
    if ToolsGiven(tools) && ToolSpecs(tools.value).Success? {
      ToolConfigChoice(ToolSpecs(tools.value).value, toolChoice);
    }
  }

  lemma WithToolsKeeps(request: Dict, tools: Option<seq<Json>>, toolChoice: string, k: string)
    requires k != "toolConfig" && WithTools(request, tools, toolChoice).Success?
    ensures Get(WithTools(request, tools, toolChoice).value, k) == Get(request, k)
  {
    if ToolsGiven(tools) {
      PutKeepsOthers(request, "toolConfig", ToolConfig(ToolSpecs(tools.value).value, toolChoice), k);
    }
  }

  /** The request names the model and carries the formatted messages, with
      `system` exactly when some message has the system role. */
  lemma ConverseRequestMessages(model: string, messages: seq<Message>, tools: Option<seq<Json>>,
                                toolChoice: string, kwargs: Dict)
    ensures var r := ConverseRequest(model, messages, tools, toolChoice, kwargs);
      r.Success? ==>
        && Get(r.value, "modelId") == Some(Str(model))
        && Get(r.value, "messages") == Some(Arr(Turns(messages)))
        && ("system" in Keys(r.value) <==> exists i :: 0 <= i < |messages| && IsSystem(messages[i]))
  {
    var base := BaseRequest(model, messages);
    var staged := WithTools(base, tools, toolChoice);
    if staged.Success? {
      BaseRequestShape(model, messages);
      WithToolsShape(base, tools, toolChoice);
      WithToolsKeeps(base, tools, toolChoice, "modelId");
      WithToolsKeeps(base, tools, toolChoice, "messages");
      WithInferenceShape(staged.value, kwargs);
      WithInferenceKeeps(staged.value, kwargs, "modelId");
      WithInferenceKeeps(staged.value, kwargs, "messages");
      SystemBlocksPresent(messages);
    }
  }

  /** The request has `toolConfig` exactly when tools are given, with `auto`
      only for the choice "auto" and `any` for every other. */
  lemma ConverseRequestTools(model: string, messages: seq<Message>, tools: Option<seq<Json>>,
                             toolChoice: string, kwargs: Dict)
    ensures var r := ConverseRequest(model, messages, tools, toolChoice, kwargs);
      r.Success? ==>
        && ("toolConfig" in Keys(r.value) <==> ToolsGiven(tools))
        && (ToolsGiven(tools) ==>
              && Sub(Get(r.value, "toolConfig"), "tools") == Some(Arr(ToolSpecs(tools.value).value))
              && Sub(Get(r.value, "toolConfig"), "toolChoice") ==
                   Some(if toolChoice == "auto" then Obj([("auto", Obj([]))]) else Obj([("any", Obj([]))])))
  {
    var base := BaseRequest(model, messages);
    var staged := WithTools(base, tools, toolChoice);
    if staged.Success? {
      BaseRequestShape(model, messages);
      WithToolsShape(base, tools, toolChoice);
      WithInferenceShape(staged.value, kwargs);
      WithInferenceKeeps(staged.value, kwargs, "toolConfig");
    }
  }

  /** The request has `inferenceConfig` exactly when some sampling setting is
      present. */
  lemma ConverseRequestInference(model: string, messages: seq<Message>, tools: Option<seq<Json>>,
                                 toolChoice: string, kwargs: Dict)
    ensures var r := ConverseRequest(model, messages, tools, toolChoice, kwargs);
      r.Success? ==>
        && ("inferenceConfig" in Keys(r.value) <==>
              "max_tokens" in Keys(kwargs) || "temperature" in Keys(kwargs) || "top_p" in Keys(kwargs))
        && (InferenceConfig(kwargs) != [] ==> Get(r.value, "inferenceConfig") == Some(Obj(InferenceConfig(kwargs))))
  {
    var base := BaseRequest(model, messages);
    var staged := WithTools(base, tools, toolChoice);
    if staged.Success? {
      BaseRequestShape(model, messages);
      WithToolsShape(base, tools, toolChoice);
      assert "inferenceConfig" !in Keys(staged.value);
      WithInferenceShape(staged.value, kwargs);
    }
  }

  /** The request assembly of `generate_response`. */
  method BuildConverseRequest(model: string, messages: seq<Message>, tools: Option<seq<Json>>,
                              toolChoice: string, kwargs: Dict) returns (r: Result<Dict, LlmError>)
    ensures r == ConverseRequest(model, messages, tools, toolChoice, kwargs)
  {
    var formatted := FormatMessages(messages);
    var request := [("modelId", Str(model))] + formatted;
    if tools.Some? && tools.value != [] {
      var converted := ConvertToolFormat(tools.value);
      if converted.Failure? {
        return Failure(converted.error);
      }
      var choice := if toolChoice == "auto" then Obj([("auto", Obj([]))]) else Obj([("any", Obj([]))]);
      request := Put(request, "toolConfig", Obj([("tools", Arr(converted.value)), ("toolChoice", choice)]));
    }
    var cfg := InferenceConfig(kwargs);
    if cfg != [] {
      request := Put(request, "inferenceConfig", Obj(cfg));
    }
    r := Success(request);
  }

  // ---------------------------------------------------------------------
  // The runtime and the adapter

  /** The settings the adapter reads from its configuration. */
  datatype LlmConfig = LlmConfig(model: Option<string>, temperature: Json, maxTokens: Json, topP: Json)

  /** `self.model_kwargs`: all three settings, whatever their values. */
  function ModelKwargs(config: LlmConfig): Dict
  {
    [("temperature", config.temperature), ("max_tokens", config.maxTokens), ("top_p", config.topP)]
  }

  /** Because the adapter always passes all three settings, the request it
      sends always carries an inference configuration with all three. */
  lemma ConfiguredInferenceAlwaysSent(config: LlmConfig)
    ensures Get(InferenceConfig(ModelKwargs(config)), "maxTokens") == Some(config.maxTokens)
    ensures Get(InferenceConfig(ModelKwargs(config)), "temperature") == Some(config.temperature)
    ensures Get(InferenceConfig(ModelKwargs(config)), "topP") == Some(config.topP)
    ensures InferenceConfig(ModelKwargs(config)) != []
  {
    var kw := ModelKwargs(config);
    GetFirstMatch(kw, 1, "max_tokens");
    GetFirstMatch(kw, 2, "top_p");
  }

  class BedrockRuntime {
    /** Every Converse request sent so far, in order. */
    ghost var sent: seq<Dict>
    /** The runtime's answer to each request; a Failure stands for a call that raised. */
    const converse: Dict -> Result<Json, string>

    constructor (converse: Dict -> Result<Json, string>)
      ensures this.converse == converse && sent == []
    {
      this.converse := converse;
      sent := [];
    }

    method Converse(request: Dict) returns (reply: Result<Json, string>)
      modifies this
      ensures reply == converse(request) && sent == old(sent) + [request]
    {
      reply := converse(request);
      sent := sent + [request];
    }
  }

  class AWSBedrockLLM {
    const model: string
    const modelKwargs: Dict
    const client: BedrockRuntime

    /** The model defaults when the configuration gives none or an empty name. */
    constructor (config: LlmConfig, client: BedrockRuntime)
      ensures model == if config.model.Some? && config.model.value != "" then config.model.value else DefaultModel
      ensures modelKwargs == ModelKwargs(config) && this.client == client
    {
      model := if config.model.Some? && config.model.value != "" then config.model.value else DefaultModel;
      modelKwargs := ModelKwargs(config);
      this.client := client;
    }

    /** `generate_response`: build the request, send it, parse the answer. */
    method GenerateResponse(messages: seq<Message>, tools: Option<seq<Json>> := None, toolChoice: string := DefaultToolChoice)
      returns (r: Result<Reply, LlmError>)
      modifies client
      ensures match ConverseRequest(model, messages, tools, toolChoice, modelKwargs)
        case Failure(e) => r == Failure(e) && client.sent == old(client.sent)
        case Success(request) =>
          && client.sent == old(client.sent) + [request]
          && r == match client.converse(request)
                  case Failure(message) => Failure(Transport(message))
                  case Success(response) => ParseResponse(response, ToolsGiven(tools))
    {
      var request := BuildConverseRequest(model, messages, tools, toolChoice, modelKwargs);
      if request.Failure? {
        return Failure(request.error);
      }
      var reply := client.Converse(request.value);
      match reply {
        case Failure(message) => r := Failure(Transport(message));
        case Success(response) =>
          var toolsGiven := tools.Some? && tools.value != [];
          if toolsGiven {
            var content := Sub(Sub(Field(response, "output"), "message"), "content");
            if content.None? {
              r := Failure(Malformed);
            } else if !Truthy(content.value) {
              r := Success(ToolCalls([]));
            } else if !content.value.Arr? {
              r := Failure(Malformed);
            } else {
              var calls := CollectToolCalls(content.value.items);
              r := if calls.Success? then Success(ToolCalls(calls.value)) else Failure(calls.error);
            }
          } else {
            var text := TextReply(response);
            r := if text.Success? then Success(Text(text.value)) else Failure(text.error);
          }
      }
    }
  }
}
