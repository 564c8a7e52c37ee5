/** The Bedrock embedder: the `invoke_model` body it builds for a text, by
    provider, and the way it picks the vector out of the answer.

    The runtime is `ModelInvoker`, an oracle that answers each request
    through a fixed function and logs what it was sent; a Failure answer
    stands for any exception raised while invoking the model or reading and
    decoding its answer. */
module BedrockEmbedding {
  import opened Wrappers
  import opened JsonValue
  import Strings

  /** The model used when the configuration names none. */
  const DefaultModel: string := "amazon.titan-embed-text-v2:0"
  /** The dimension recorded when the configuration gives none. */
  const DefaultDims: nat := 1024

  /** Everything the endpoint call can raise comes back as this one error,
      "Error raised by inference endpoint: ...". */
  datatype EmbedError = InferenceEndpointError(cause: Cause)

  datatype Cause =
    | Raised(message: string)   // invoking the model or decoding its answer raised
    | Unreadable                // the answer has no vector where the provider puts it

  /** The settings the embedder reads from its configuration. */
  datatype EmbedderConfig = EmbedderConfig(model: Option<string>, embeddingDims: Option<int>, modelKwargs: Option<Dict>)

  /** The configured model name; a missing or empty name falls back to the
      default. */
  function ModelOrDefault(model: Option<string>): (r: string)
    ensures model.Some? && model.value != "" ==> r == model.value
    ensures model.None? || model.value == "" ==> r == DefaultModel
    ensures r != ""
  {
    if model.Some? && model.value != "" then model.value else DefaultModel
  }

  /** The configured dimension; a missing or zero dimension falls back to the
      default. */
  function DimsOrDefault(dims: Option<int>): (r: int)
    ensures dims.Some? && dims.value != 0 ==> r == dims.value
    ensures dims.None? || dims.value == 0 ==> r == DefaultDims
    ensures r != 0
  {
    if dims.Some? && dims.value != 0 then dims.value else DefaultDims
  }

  /** The configured keyword arguments; none configured means none at all. */
  function KwargsOrEmpty(kwargs: Option<Dict>): (r: Dict)
    ensures kwargs.Some? ==> r == kwargs.value
    ensures kwargs.None? ==> r == []
  {
    if kwargs.Some? then kwargs.value else []
  }

  /** The provider named by a model: the model name up to its first dot. */
  function Provider(model: string): (p: string)
    ensures |p| <= |model| && p == model[..|p|]
    ensures '.' !in p
  {
    Strings.SplitFirstPiece(model, '.');
    Strings.Split(model, '.')[0]
  }

  /** The provider is the longest dot-free prefix of the model name. */
  lemma ProviderIsPrefix(model: string)
    ensures var p := Provider(model);
      && |p| <= |model| && p == model[..|p|]
      && '.' !in p
      && (|p| < |model| ==> model[|p|] == '.')
  {
    Strings.SplitFirstPiece(model, '.');
  }

  /** The default model belongs to the amazon provider, so it is sent
      `inputText` and its answer read from `embedding`. */
  lemma DefaultModelIsAmazon()
    ensures Provider(DefaultModel) == "amazon"
  {
    assert DefaultModel == "amazon" + ['.'] + "titan-embed-text-v2:0";
    Strings.SplitCons("amazon", '.', "titan-embed-text-v2:0");
  }

  /** The text with each platform line separator turned into one space, so
      that the text sent to the model holds no line separator. */
  function FlattenLines(text: string, lineSeparator: string): (r: string)
    requires lineSeparator == "\n" || lineSeparator == "\r\n"
    ensures !Strings.Occurs(r, lineSeparator)
  {
    Strings.ReplaceRemovesLineSeparator(text, lineSeparator);
    Strings.Replace(text, lineSeparator, " ")
  }

  /** A text without line separators is sent as it is. */
  lemma FlattenLinesKeepsSingleLine(text: string, lineSeparator: string)
    requires lineSeparator == "\n" || lineSeparator == "\r\n"
    requires !Strings.Occurs(text, lineSeparator)
    ensures FlattenLines(text, lineSeparator) == text
  {
    Strings.ReplaceWithoutTarget(text, lineSeparator, " ");
  }

  /** Each separator between lines becomes exactly one space: a first line,
      a separator and the rest flatten to the line, a space and the
      flattened rest. */
  lemma FlattenLinesJoinsLines(line: string, lineSeparator: string, rest: string)
    requires lineSeparator == "\n" || lineSeparator == "\r\n"
    requires !Strings.Occurs(line, lineSeparator)
    ensures FlattenLines(line + lineSeparator + rest, lineSeparator) == line + " " + FlattenLines(rest, lineSeparator)
  {
    Strings.ReplaceLineSeparatorConcat(line, lineSeparator, rest);
  }

  /** The request body: the configured keyword arguments, then for cohere an
      `input_type` (unless given) and `texts`, for every other provider
      `inputText`. */
  function InputBody(provider: string, text: string, kwargs: Dict): (body: Dict)
    ensures provider == "cohere" ==> Keys(body) == Keys(kwargs) + {"input_type", "texts"}
    ensures provider != "cohere" ==> Keys(body) == Keys(kwargs) + {"inputText"}
  {
    if provider == "cohere" then
      var withType :=
        if "input_type" !in Keys(kwargs) then Put(kwargs, "input_type", Str("search_document")) else kwargs;
      Put(withType, "texts", Arr([Str(text)]))
    else Put(kwargs, "inputText", Str(text))
  }

  /** For cohere the body carries the text as a one-element `texts` list and
      an `input_type` that defaults to "search_document"; for every other
      provider it carries `inputText`. Every other keyword argument is passed
      through unchanged. */
  lemma InputBodyShape(provider: string, text: string, kwargs: Dict, k: string)
    ensures var body := InputBody(provider, text, kwargs);
      if provider == "cohere" then
        && Get(body, "texts") == Some(Arr([Str(text)]))
        && Get(body, "input_type") == Some(GetOr(kwargs, "input_type", Str("search_document")))
        && (k != "texts" && k != "input_type" ==> Get(body, k) == Get(kwargs, k))
      else
        && Get(body, "inputText") == Some(Str(text))
        && (k != "inputText" ==> Get(body, k) == Get(kwargs, k))
  {
    if provider == "cohere" {
      var withType :=
        if "input_type" !in Keys(kwargs) then Put(kwargs, "input_type", Str("search_document")) else kwargs;
      if "input_type" !in Keys(kwargs) {
        if k != "input_type" {
          PutKeepsOthers(kwargs, "input_type", Str("search_document"), k);
        }
      }
      PutKeepsOthers(withType, "texts", Arr([Str(text)]), "input_type");
      if k != "texts" {
        PutKeepsOthers(withType, "texts", Arr([Str(text)]), k);
      }
    } else if k != "inputText" {
      PutKeepsOthers(kwargs, "inputText", Str(text), k);
    }
  }

  /** `value[0]` on a decoded JSON value: the first element of a list, the
      first character of a string; anything else raises. */
  function FirstElement(value: Json): (r: Option<Json>)
    ensures value.Arr? && value.items != [] ==> r == Some(value.items[0])
    ensures value.Str? && value.s != "" ==> r == Some(Str([value.s[0]]))
    ensures !(value.Arr? && value.items != []) && !(value.Str? && value.s != "") ==> r.None?
  {
    match value
    case Arr(items) => if items != [] then Some(items[0]) else None
    case Str(s) => if s != "" then Some(Str([s[0]])) else None
    case _ => None
  }

  /** The vector in a decoded answer: `embeddings[0]` for cohere, the
      `embedding` entry (or null when it is missing) for every other provider. */
  function SelectEmbedding(provider: string, body: Json): (r: Result<Json, EmbedError>)
    ensures !body.Obj? ==> r == Failure(InferenceEndpointError(Unreadable))
    ensures body.Obj? && provider != "cohere" ==> r == Success(GetOr(body.fields, "embedding", Null))
    ensures body.Obj? && provider == "cohere" ==>
      r == match Get(body.fields, "embeddings")
           case None => Failure(InferenceEndpointError(Unreadable))
           case Some(embeddings) =>
             if FirstElement(embeddings).Some? then Success(FirstElement(embeddings).value)
             else Failure(InferenceEndpointError(Unreadable))
  {
    if !body.Obj? then Failure(InferenceEndpointError(Unreadable))
    else if provider == "cohere" then
      match GetOr(body.fields, "embeddings", Null)
      case Null => Failure(InferenceEndpointError(Unreadable))
      case embeddings =>
        match FirstElement(embeddings)
        case Some(first) => Success(first)
        case None => Failure(InferenceEndpointError(Unreadable))
    else Success(GetOr(body.fields, "embedding", Null))
  }

  /** A cohere answer listing vectors yields the first of them; any other
      provider's answer yields its `embedding` entry, whatever else it holds. */
  lemma SelectEmbeddingReadsVector(provider: string, fields: Dict, vectors: seq<Json>, vector: Json)
    requires vectors != []
    ensures Get(fields, "embeddings") == Some(Arr(vectors)) ==>
      SelectEmbedding("cohere", Obj(fields)) == Success(vectors[0])
    ensures provider != "cohere" && Get(fields, "embedding") == Some(vector) ==>
      SelectEmbedding(provider, Obj(fields)) == Success(vector)
  {
  }

  /** The arguments of one `invoke_model` call. */
  datatype InvokeRequest = InvokeRequest(body: string, modelId: string, accept: string, contentType: string)

  class ModelInvoker {
    /** Every request sent so far, in order. */
    ghost var sent: seq<InvokeRequest>
    /** The decoded answer body for each request; a Failure stands for an exception. */
    const invoke: InvokeRequest -> Result<Json, string>

    constructor (invoke: InvokeRequest -> Result<Json, string>)
      ensures this.invoke == invoke && sent == []
    {
      this.invoke := invoke;
      sent := [];
    }

    method InvokeModel(request: InvokeRequest) returns (reply: Result<Json, string>)
      modifies this
      ensures reply == invoke(request) && sent == old(sent) + [request]
    {
      reply := invoke(request);
      sent := sent + [request];
    }
  }

  class AWSBedrockEmbedding {
    const model: string
    const embeddingDims: int
    const modelKwargs: Dict
    /** The platform's line separator. */
    const lineSeparator: string
    /** The JSON serialiser, left abstract. */
    const serialize: Json -> string
    const client: ModelInvoker

    constructor (config: EmbedderConfig, lineSeparator: string, serialize: Json -> string, client: ModelInvoker)
      requires lineSeparator == "\n" || lineSeparator == "\r\n"
      ensures model == ModelOrDefault(config.model)
      ensures embeddingDims == DimsOrDefault(config.embeddingDims)
      ensures modelKwargs == KwargsOrEmpty(config.modelKwargs)
      ensures this.lineSeparator == lineSeparator && this.serialize == serialize && this.client == client
      ensures Valid()
    {
      model := ModelOrDefault(config.model);
      embeddingDims := DimsOrDefault(config.embeddingDims);
      modelKwargs := KwargsOrEmpty(config.modelKwargs);
      this.lineSeparator := lineSeparator;
      this.serialize := serialize;
      this.client := client;
    }

    predicate Valid()
    {
      lineSeparator == "\n" || lineSeparator == "\r\n"
    }

    /** The request `_embedding_func` sends for a text. */
    function RequestFor(text: string): InvokeRequest
      requires Valid()
    {
      var provider := Provider(model);
      InvokeRequest(serialize(Obj(InputBody(provider, FlattenLines(text, lineSeparator), modelKwargs))),
                    model, "application/json", "application/json")
    }

    /** `_embedding_func`: one `invoke_model` call, then the provider's
        vector; every failure becomes an inference-endpoint error. */
    method EmbeddingFunc(text: string) returns (r: Result<Json, EmbedError>)
      requires Valid()
      modifies client
      ensures client.sent == old(client.sent) + [RequestFor(text)]
      ensures r == match client.invoke(RequestFor(text))
        case Failure(message) => Failure(InferenceEndpointError(Raised(message)))
        case Success(body) => SelectEmbedding(Provider(model), body)
    {
      var flat := Strings.Replace(text, lineSeparator, " ");
      var provider := Strings.Split(model, '.')[0];
      var inputBody := modelKwargs;
      if provider == "cohere" {
        if "input_type" !in Keys(inputBody) {
          inputBody := Put(inputBody, "input_type", Str("search_document"));
        }
        inputBody := Put(inputBody, "texts", Arr([Str(flat)]));
      } else {
        inputBody := Put(inputBody, "inputText", Str(flat));
      }
      var body := serialize(Obj(inputBody));
      var reply := client.InvokeModel(InvokeRequest(body, model, "application/json", "application/json"));
      match reply {
        case Failure(message) => r := Failure(InferenceEndpointError(Raised(message)));
        case Success(responseBody) => r := SelectEmbedding(provider, responseBody);
      }
    }

    /** `embed`: the vector `_embedding_func` returns. */
    method Embed(text: string) returns (r: Result<Json, EmbedError>)
      requires Valid()
      modifies client
      ensures client.sent == old(client.sent) + [RequestFor(text)]
      ensures r == match client.invoke(RequestFor(text))
        case Failure(message) => Failure(InferenceEndpointError(Raised(message)))
        case Success(body) => SelectEmbedding(Provider(model), body)
    {
      r := EmbeddingFunc(text);
    }
  }
}
