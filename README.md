# mem0 AWS adapters — a Dafny model

This project models how mem0's AWS adapters shape requests and read answers.

- **OpenSearch vector store** (`AWSOpenSearch`):
  - the index body that `create_col` provisions, and the create-only-if-missing rule of `_create_index_safe`;
  - the interleaved bulk actions of `insert`, with defaults for missing payloads and ids, the newline-joined bulk body, and the filter that picks the failed bulk items;
  - the kNN query of `search` and the match-all or term query of `list`;
  - the partial document of `update`;
  - the mapping of engine hits and documents to `OutputData`.
- **Bedrock chat model** (`AWSBedrockLLM`):
  - `_format_messages`, which splits chat messages into `system` blocks and user/assistant turns;
  - `_prepare_inference_config`, which renames the sampling settings;
  - `_convert_tool_format`, which turns OpenAI-style function tools into `toolSpec` records;
  - `_parse_response`, which reads a Converse answer into tool calls or joined text;
  - the request assembly of `generate_response`.
- **Bedrock embedder** (`AWSBedrockEmbedding`):
  - the configuration defaults;
  - the provider prefix of the model id;
  - the line-separator clean-up of the text;
  - the per-provider `invoke_model` body;
  - the per-provider choice of the vector in the answer.
- **OpenSearch configuration** (`AWSOpenSearchConfig`): its seven fields, their defaults, and the validator that refuses unknown keys.

Remote services are oracles.
- The OpenSearch engine is `OpenSearch.OpenSearchClient`.
- The Bedrock runtime is `BedrockLlm.BedrockRuntime` for `converse` and `BedrockEmbedding.ModelInvoker` for `invoke_model`.

Each oracle answers every request through a fixed function given at construction. It logs the requests it receives in a ghost `sent` sequence. A `Failure` answer stands for a call that raised. The OpenSearch oracle also keeps the set of index names that exist, so "create at most once" can be stated about it. Its existence check is the one exception to the fixed function: the function decides only whether the check raises, and a check that does not raise is answered from that set.

JSON values are the `JsonValue.Json` datatype.
- A Python dict is an insertion-ordered list of entries.
- `Get` finds the first entry with the key.
- `Put` replaces that entry in place, or appends a new one, as `d[k] = v` does.

`json.dumps` is an abstract `Json -> string` function.

Each loop in the source is a method with a `while` loop. The method is proved equal to a recursive specification function, and the properties (order, filtering, defaults, interleaving) are proved as lemmas about that function. Examples are `BuildActions`, `TermConditions`, `CollectHits`, `FormatMessages`, `ConvertToolFormat`, `ConvertProperties` and `CollectToolCalls`.

With filters, `search` puts the term conditions under `bool.filter`, next to the kNN clause under `bool.must`.

Default arguments keep the source's values: `OpenSearch.DefaultSearchLimit` (5) for `search`, `OpenSearch.DefaultDistance` ("cosine") for `create_col`, and `BedrockLlm.DefaultToolChoice` ("auto") with no tools for `generate_response`.

## Model

| member | source | states |
|---|---|---|
| OpenSearch.SpaceType | mem0/vector_stores/aws_opensearch.py:133-139 | the space is one of cosinesimil, l2 or innerproduct, and an unknown distance name yields cosinesimil |
| OpenSearch.SpaceTypeTable | mem0/vector_stores/aws_opensearch.py:133-139 | cosine→cosinesimil, l2→l2, dotProduct→innerproduct, and every other name falls back to cosinesimil |
| OpenSearch.IndexBody | mem0/vector_stores/aws_opensearch.py:141-170 | the body has exactly the two keys mappings and settings |
| OpenSearch.IndexBodyDeclares | mem0/vector_stores/aws_opensearch.py:141-161 | the index body maps the `vector` property by the kNN vector mapping for the requested size and distance |
| OpenSearch.VectorMappingDeclares | mem0/vector_stores/aws_opensearch.py:144-156 | the vector field is a knn_vector whose dimension is `vector_size`, with the mapped space_type and HNSW parameters ef_construction 128 and m 16 |
| OpenSearch.IndexBodySettings | mem0/vector_stores/aws_opensearch.py:162-169 | the index settings enable knn ("true") with ef_search 32 |
| OpenSearch.OpenSearchClient.Exists | mem0/vector_stores/aws_opensearch.py:177 | a raised existence check comes back as its error; otherwise the answer is whether the index is in the engine's index set; no index changes, and the call is logged |
| OpenSearch.OpenSearchClient.Create | mem0/vector_stores/aws_opensearch.py:183-186 | the engine's answer to the creation request; a successful creation adds the name to the index set |
| OpenSearch.AWSOpenSearch.constructor | mem0/vector_stores/aws_opensearch.py:51 | the index name is the collection name |
| OpenSearch.AWSOpenSearch.CreateIndexSafe | mem0/vector_stores/aws_opensearch.py:174-192 | a raised existence check is re-raised as a transport failure with no create call; an existing index gets only the existence check and the result None; a missing one gets exactly one create call, whose answer or error is returned; at most one creation request per call |
| OpenSearch.AWSOpenSearch.CreateIndexSafeTwice | mem0/vector_stores/aws_opensearch.py:174-188 | after a successful first call the index exists, the second call returns None, and the pair sends at most one creation request |
| OpenSearch.AWSOpenSearch.CreateCol | mem0/vector_stores/aws_opensearch.py:124-172 | returns nothing on success; re-raises a failed existence check or creation; otherwise provisions the adapter's index with the index body for the size and distance (default "cosine") only if it is missing, after which the index exists |
| OpenSearch.DefaultPayloads | mem0/vector_stores/aws_opensearch.py:207-208 | missing or empty payloads become one empty dict per vector; given payloads are kept |
| OpenSearch.DefaultIds | mem0/vector_stores/aws_opensearch.py:209-210 | missing or empty ids become one None per vector; given ids are kept, in order |
| OpenSearch.ZipLength | mem0/vector_stores/aws_opensearch.py:213 | zip stops at the shortest input: the result is one of the three lengths and bounded by each |
| OpenSearch.Actions | mem0/vector_stores/aws_opensearch.py:212-225 | two actions per triple |
| OpenSearch.BulkActions | mem0/vector_stores/aws_opensearch.py:212-225 | two actions per zipped triple, so the shortest input decides the count |
| OpenSearch.ActionsInterleave | mem0/vector_stores/aws_opensearch.py:212-225 | 2·n actions: the index action with the i-th id at position 2i, the i-th vector and payload at 2i+1 |
| OpenSearch.InsertDefaultsCoverEveryVector | mem0/vector_stores/aws_opensearch.py:207-225 | without payloads and ids every vector gets an index action with a null id followed by its document with an empty payload |
| OpenSearch.BuildActions | mem0/vector_stores/aws_opensearch.py:212-225 | the loop builds exactly the interleaved action list over the zipped triples |
| OpenSearch.BulkBody | mem0/vector_stores/aws_opensearch.py:228 | the bulk body is never empty and ends with a newline; with no actions it is a single newline |
| OpenSearch.BulkBodyLines | mem0/vector_stores/aws_opensearch.py:228 | splitting the bulk body on newlines gives each serialised record in order, then the empty piece after the trailing newline |
| OpenSearch.ItemHasError | mem0/vector_stores/aws_opensearch.py:230 | an item is readable exactly when its "index" entry is a dict, and has an error exactly when that dict holds "error" |
| OpenSearch.ErrorItems | mem0/vector_stores/aws_opensearch.py:230 | the filter is defined exactly when every item has a dict under "index", and keeps at most the items given |
| OpenSearch.ErrorItemsExact | mem0/vector_stores/aws_opensearch.py:230 | the reported items are exactly the items whose "index" entry holds "error" |
| OpenSearch.ErrorItemsAppend | mem0/vector_stores/aws_opensearch.py:230 | the filter keeps item order: filtering a concatenation concatenates the filtered parts |
| OpenSearch.CheckBulkResponse | mem0/vector_stores/aws_opensearch.py:229-231 | insert succeeds exactly when the "errors" flag is falsy or missing; with the flag set and a readable items list it fails with exactly the filtered error items; otherwise it fails as malformed |
| OpenSearch.AWSOpenSearch.Insert | mem0/vector_stores/aws_opensearch.py:193-231 | sends one bulk request whose body is the newline-joined interleaved actions over the defaulted inputs, and reports the bulk response check |
| OpenSearch.TermsAt | mem0/vector_stores/aws_opensearch.py:278-280 | one term per filter entry, the i-th testing `payload.<key>` of the i-th entry, in filter order |
| OpenSearch.TermConditions | mem0/vector_stores/aws_opensearch.py:278-280 | the loop builds exactly the term list of the filters |
| OpenSearch.SearchQuery | mem0/vector_stores/aws_opensearch.py:256-283 | the query has exactly the two keys size and query |
| OpenSearch.SearchQueryShape | mem0/vector_stores/aws_opensearch.py:256-283 | size and k equal the limit; without filters the query is the bare knn clause; with filters knn is the one `must` entry and the terms are under `filter` |
| OpenSearch.BuildSearchQuery | mem0/vector_stores/aws_opensearch.py:256-283 | the in-place construction yields exactly the search query |
| OpenSearch.HitsOf | mem0/vector_stores/aws_opensearch.py:292 | the hits are read exactly when hits.hits is present and a list, and they are that list |
| OpenSearch.HitToOutput | mem0/vector_stores/aws_opensearch.py:293-295 | a hit maps exactly when it has _id, _score and _source.payload, and the output holds those three values |
| OpenSearch.MapHits | mem0/vector_stores/aws_opensearch.py:291-296 | a successful mapping has one output per hit |
| OpenSearch.MapHitsDefined | mem0/vector_stores/aws_opensearch.py:291-296 | the mapping succeeds exactly when every hit can be read |
| OpenSearch.MapHitsAt | mem0/vector_stores/aws_opensearch.py:291-296 | the i-th output is the i-th hit's, so hit order is kept |
| OpenSearch.CollectHits | mem0/vector_stores/aws_opensearch.py:291-296 | the loop yields exactly the hit mapping, stopping at the first unreadable hit |
| OpenSearch.SearchOutcome | mem0/vector_stores/aws_opensearch.py:285-298 | search succeeds exactly when the call returns, hits.hits is a list and every hit is readable; it then returns the hit mapping of hits.hits, and a raised call is a transport failure with its error |
| OpenSearch.AWSOpenSearch.Search | mem0/vector_stores/aws_opensearch.py:233-298 | sends exactly the search query to the adapter's index (limit 5 unless given), changes no index, and returns the search outcome of the answer |
| OpenSearch.ListQueryShape | mem0/vector_stores/aws_opensearch.py:405-412 | match_all without filters, bool.must with the terms otherwise; size is present exactly when the limit is truthy, and then equals it |
| OpenSearch.ListQuery | mem0/vector_stores/aws_opensearch.py:405-412 | the query always has "query", and at most "query" and "size" |
| OpenSearch.BuildListQuery | mem0/vector_stores/aws_opensearch.py:405-412 | the in-place construction yields exactly the list query |
| OpenSearch.ListOutcome | mem0/vector_stores/aws_opensearch.py:413-423 | list succeeds exactly when search would, returning one outer list that wraps the hits in order; every failure is re-raised as a List failure |
| OpenSearch.AWSOpenSearch.List | mem0/vector_stores/aws_opensearch.py:394-423 | sends exactly the list query and returns the list outcome of the answer |
| OpenSearch.UpdateDoc | mem0/vector_stores/aws_opensearch.py:326-330 | the doc has "vector" exactly when a vector is given and "payload" exactly when a payload is given, holding them, and no other key |
| OpenSearch.AWSOpenSearch.Update | mem0/vector_stores/aws_opensearch.py:312-339 | sends {"doc": doc} for the id; a raised call becomes an Update failure |
| OpenSearch.GetOutput | mem0/vector_stores/aws_opensearch.py:353 | a document maps exactly when it has _id and _source.payload, and its score is always None |
| OpenSearch.GetOutcome | mem0/vector_stores/aws_opensearch.py:351-355 | get succeeds exactly when the call returns a readable document, and then returns that document's id and payload with score None; a raised call is a Get failure carrying its error, and every failure is a Get failure |
| OpenSearch.AWSOpenSearch.Get | mem0/vector_stores/aws_opensearch.py:341-355 | sends one get call for the id and returns the get outcome, whose score is None |
| BedrockLlm.SystemBlocksAppend | mem0/llms/aws_bedrock.py:57-62 | system blocks keep message order: the blocks of a concatenation concatenate |
| BedrockLlm.TurnsAppend | mem0/llms/aws_bedrock.py:57-67 | user and assistant turns keep message order, and other roles are dropped |
| BedrockLlm.SystemBlocksPresent | mem0/llms/aws_bedrock.py:57-71 | there are system blocks exactly when some message's lower-cased role is "system" |
| BedrockLlm.FragmentKeys | mem0/llms/aws_bedrock.py:69-71 | "messages" is always set, and "system" only when there are system blocks |
| BedrockLlm.FormattedRequest | mem0/llms/aws_bedrock.py:53-73 | the request's messages are the user and assistant turns |
| BedrockLlm.FormattedRequestKeys | mem0/llms/aws_bedrock.py:53-73 | the formatted request has messages = the turns, "system" exactly when there are system blocks, and no other key |
| BedrockLlm.FormatMessages | mem0/llms/aws_bedrock.py:42-73 | the loop yields exactly the formatted request |
| BedrockLlm.InferenceConfig | mem0/llms/aws_bedrock.py:109-126 | maxTokens, temperature and topP carry max_tokens, temperature and top_p exactly when present; no other key; empty exactly when none of the three is present |
| BedrockLlm.PropertySchema | mem0/llms/aws_bedrock.py:158-161 | a property's type defaults to "string" and its description to "" |
| BedrockLlm.PropertySchemasAt | mem0/llms/aws_bedrock.py:157-161 | every property is converted in place, keeping its name and order |
| BedrockLlm.PropertySchemasDefined | mem0/llms/aws_bedrock.py:157-161 | the properties convert exactly when every details value is a dict |
| BedrockLlm.ConvertTool | mem0/llms/aws_bedrock.py:140-163 | a tool is skipped exactly when its type is not "function"; a function tool with a name, dict parameters and dict properties converts, and the spec carries its name, its description or "", the required list of its parameters or [], and the property schemas |
| BedrockLlm.ToolSpecReadsBack | mem0/llms/aws_bedrock.py:143-155 | the converted spec reads back the name, description and required list it was built from, an object schema and the property schemas |
| BedrockLlm.ConvertToolDefaults | mem0/llms/aws_bedrock.py:143-155 | a function tool with only a name and empty parameters gets description "", required [] and no properties |
| BedrockLlm.ToolSpecs | mem0/llms/aws_bedrock.py:128-165 | conversion succeeds exactly when every tool converts, with at most one spec per tool |
| BedrockLlm.ToolSpecsAppend | mem0/llms/aws_bedrock.py:138-165 | converted tools keep input order: the conversion of a concatenation concatenates |
| BedrockLlm.ConvertProperties | mem0/llms/aws_bedrock.py:157-161 | the inner loop yields exactly the property schemas |
| BedrockLlm.ConvertToolWithLoop | mem0/llms/aws_bedrock.py:141-163 | one tool converted with the inner loop equals its conversion |
| BedrockLlm.ConvertToolFormat | mem0/llms/aws_bedrock.py:128-165 | the loop yields exactly the converted function tools in order |
| BedrockLlm.ToolCallOf | mem0/llms/aws_bedrock.py:91-97 | a dict block without "toolUse" yields no call; one whose toolUse has name and input yields exactly the call with that name and the input as arguments; a call is never made without both |
| BedrockLlm.ToolCallsOf | mem0/llms/aws_bedrock.py:90-97 | the calls are read exactly when every block is readable, with at most one call per block |
| BedrockLlm.ToolCallsAppend | mem0/llms/aws_bedrock.py:90-97 | tool calls keep block order, and blocks without toolUse contribute nothing |
| BedrockLlm.CollectToolCalls | mem0/llms/aws_bedrock.py:87-99 | the loop yields exactly the tool calls of the blocks |
| BedrockLlm.TextOf | mem0/llms/aws_bedrock.py:105 | a dict block without "text" contributes nothing; one whose "text" is a string contributes exactly that string |
| BedrockLlm.TextBlocks | mem0/llms/aws_bedrock.py:105 | the texts are read exactly when every block is readable, with at most one text per block |
| BedrockLlm.TextBlocksAppend | mem0/llms/aws_bedrock.py:105 | texts keep block order, and blocks without text are skipped |
| BedrockLlm.TextReply | mem0/llms/aws_bedrock.py:101-107 | the text is "" when output, output.message or its content is absent; a readable content list gives its texts joined by one space |
| BedrockLlm.TextReplyJoinsWithSpace | mem0/llms/aws_bedrock.py:105-106 | two text blocks around a tool block come back as their texts joined by one space |
| BedrockLlm.ParseResponse | mem0/llms/aws_bedrock.py:75-107 | with tools the reply needs output.message.content: a falsy content gives no calls, a readable content list gives its tool calls, an unreadable one fails; without tools the reply is the text reply |
| BedrockLlm.BaseRequestShape | mem0/llms/aws_bedrock.py:186-190 | the request starts with modelId and the formatted messages, with "system" exactly when there are system blocks, and nothing else |
| BedrockLlm.WithInferenceShape | mem0/llms/aws_bedrock.py:199-201 | inferenceConfig is added exactly when the renamed settings are non-empty |
| BedrockLlm.WithInferenceKeeps | mem0/llms/aws_bedrock.py:199-201 | adding inferenceConfig leaves every other key as it was |
| BedrockLlm.ToolConfigChoice | mem0/llms/aws_bedrock.py:193-196 | the tool configuration holds the converted tools and the mapped choice |
| BedrockLlm.WithToolsShape | mem0/llms/aws_bedrock.py:192-197 | toolConfig is added exactly when tools are truthy, holding the converted tools and the mapped choice; the step fails only when the tools cannot be converted |
| BedrockLlm.WithToolsKeeps | mem0/llms/aws_bedrock.py:192-197 | adding toolConfig leaves every other key as it was |
| BedrockLlm.ConverseRequest | mem0/llms/aws_bedrock.py:186-201 | building the request fails exactly when tools are given and cannot be converted |
| BedrockLlm.ConverseRequestMessages | mem0/llms/aws_bedrock.py:186-190 | the request has modelId = the model, messages = the turns, and "system" exactly when some message has the system role |
| BedrockLlm.ConverseRequestTools | mem0/llms/aws_bedrock.py:192-197 | toolConfig is present exactly when tools are truthy; it holds the converted tool list, and toolChoice is {"auto": {}} for "auto" and {"any": {}} otherwise |
| BedrockLlm.ConverseRequestInference | mem0/llms/aws_bedrock.py:199-201 | inferenceConfig is present exactly when one of max_tokens, temperature or top_p is among the settings, and then holds the renamed settings |
| BedrockLlm.BuildConverseRequest | mem0/llms/aws_bedrock.py:186-201 | the in-place assembly yields exactly the Converse request |
| BedrockLlm.ConfiguredInferenceAlwaysSent | mem0/llms/aws_bedrock.py:36-40 | the adapter always passes all three settings, so inferenceConfig is always sent with all three |
| BedrockLlm.AWSBedrockLLM.constructor | mem0/llms/aws_bedrock.py:18-40 | a missing or empty model becomes the Claude 3.5 Sonnet default; the settings are temperature, max_tokens and top_p from the configuration |
| BedrockLlm.BedrockRuntime.Converse | mem0/llms/aws_bedrock.py:203 | the runtime's answer to the request, which is logged |
| BedrockLlm.AWSBedrockLLM.GenerateResponse | mem0/llms/aws_bedrock.py:167-204 | sends exactly the Converse request (no tools and the choice "auto" unless given), or nothing when the tools cannot be converted, and parses the answer by whether tools were given |
| BedrockEmbedding.ModelOrDefault | mem0/embeddings/aws_bedrock.py:17 | a missing or empty model becomes amazon.titan-embed-text-v2:0; any other is kept |
| BedrockEmbedding.DimsOrDefault | mem0/embeddings/aws_bedrock.py:18 | a missing or zero dimension becomes 1024; any other is kept |
| BedrockEmbedding.KwargsOrEmpty | mem0/embeddings/aws_bedrock.py:19 | missing keyword arguments become the empty dict |
| BedrockEmbedding.Provider | mem0/embeddings/aws_bedrock.py:43 | the provider is a dot-free prefix of the model id |
| BedrockEmbedding.ProviderIsPrefix | mem0/embeddings/aws_bedrock.py:43 | the provider is the longest dot-free prefix of the model id |
| BedrockEmbedding.DefaultModelIsAmazon | mem0/embeddings/aws_bedrock.py:43-52 | the default model's provider is "amazon" |
| BedrockEmbedding.FlattenLines | mem0/embeddings/aws_bedrock.py:40 | the text sent holds no platform line separator |
| BedrockEmbedding.FlattenLinesKeepsSingleLine | mem0/embeddings/aws_bedrock.py:40 | a text without line separators is sent unchanged |
| BedrockEmbedding.FlattenLinesJoinsLines | mem0/embeddings/aws_bedrock.py:40 | a line, a separator and the rest become the line, one space and the flattened rest |
| BedrockEmbedding.InputBody | mem0/embeddings/aws_bedrock.py:44-52 | the body's keys are the keyword arguments' plus input_type and texts for cohere, plus inputText for every other provider |
| BedrockEmbedding.InputBodyShape | mem0/embeddings/aws_bedrock.py:44-52 | cohere: texts = [text], input_type kept or "search_document"; others: inputText = text; every other keyword argument passes through |
| BedrockEmbedding.FirstElement | mem0/embeddings/aws_bedrock.py:66 | indexing by 0 gives the first list element or the first character, and fails on anything else |
| BedrockEmbedding.SelectEmbedding | mem0/embeddings/aws_bedrock.py:64-71 | a non-dict answer fails; cohere gives embeddings[0] or fails; any other provider gives "embedding" or null |
| BedrockEmbedding.SelectEmbeddingReadsVector | mem0/embeddings/aws_bedrock.py:65-69 | a cohere answer listing vectors yields the first; another provider's answer yields its embedding |
| BedrockEmbedding.ModelInvoker.InvokeModel | mem0/embeddings/aws_bedrock.py:56-61 | the runtime's decoded answer to the request, which is logged |
| BedrockEmbedding.AWSBedrockEmbedding.constructor | mem0/embeddings/aws_bedrock.py:17-19 | model, dimension and keyword arguments take their defaults when unset, and the embedder is ready to send requests |
| BedrockEmbedding.AWSBedrockEmbedding.EmbeddingFunc | mem0/embeddings/aws_bedrock.py:37-71 | sends one JSON request with the provider's body for the cleaned text; a raised call or an unreadable answer is an inference-endpoint error, otherwise the provider's vector |
| BedrockEmbedding.AWSBedrockEmbedding.Embed | mem0/embeddings/aws_bedrock.py:73-84 | the same request and result as the embedding function |
| OpenSearchConfig.ExtraFields | mem0/configs/vector_stores/aws_opensearch.py:18-20 | the extra keys are exactly the input keys outside the seven fields |
| OpenSearchConfig.ValidateExtraFields | mem0/configs/vector_stores/aws_opensearch.py:15-25 | fails exactly when some key is not a field, reporting the extra keys; otherwise returns the input unchanged |
| OpenSearchConfig.OnlyFieldKeys | mem0/configs/vector_stores/aws_opensearch.py:18-21 | every entry names a field exactly when the key set is within the allowed fields |
| OpenSearchConfig.ValidateExtraFieldsExamples | mem0/configs/vector_stores/aws_opensearch.py:7-25 | the empty input and field-only inputs pass; one unknown key fails and is reported |
| OpenSearchConfig.DeclaredFields | mem0/configs/vector_stores/aws_opensearch.py:7-13 | seven distinct fields; by default only collection_name ("mem0") and use_iam (false) have a value |

## Left out

- Credentials, sessions and clients: AWS credentials from the environment, boto3 sessions, the Secrets Manager lookup `_get_secret`, and the IAM versus basic-auth choice with the host, region and credential checks of the OpenSearch constructor. These are foreign SDK calls and configuration plumbing. The clients appear only as the oracles above.
- OpenSearch.AWSOpenSearch.constructor: does not call `create_col` itself. A caller calls `CreateCol` with the embedding dimension and the default distance "cosine" after construction, because a Dafny constructor cannot report the creation error the source raises.
- `delete`, `list_cols`, `delete_col` and `col_info`: each is one client call with its error re-wrapped, with nothing to state beyond the oracle.
- Logging in `_create_index_safe`, and the exact text of every exception message. Errors are the constructors of the error datatypes.
- The exact text `json.dumps` produces. It is the abstract `serialize`; `BulkBodyLines` assumes only that a serialised record holds no raw newline.
- Reading the `invoke_model` response stream and `json.loads` of it. `ModelInvoker` answers with the decoded JSON, and any exception in that part is a `Failure`.
- Floating point: vector elements are `real` and scores are opaque JSON values. kNN ranking is the engine's business.
- pydantic: the coercion of `OutputData` fields and of configuration values. `OpenSearchConfig.Defaults` records the field defaults; building a configuration from input values is not modelled beyond the extra-field check.
- Python's `in` and iteration on values of the wrong type (a string content block, a dict where a list is expected) are not followed. Such inputs are reported as `Malformed`, `MalformedResponse` or `Unreadable`, as are the KeyError, TypeError and IndexError the source raises on missing keys.
- BedrockLlm.PropertySchemas: appends one entry per property, because the names in a Python dict are distinct; a dict with duplicate names is outside what the source can receive.
- `str.lower` is modelled on ASCII letters only (`Strings.Lower`). Other Unicode case mappings are not modelled.
- `generate_response`'s `response_format` argument is unused by the source and is not a parameter of the model.
- Decoded answers with duplicate keys: `Get` reads the first entry, while `json.loads` keeps the last.
- `os.linesep` is a constructor parameter of the embedder, restricted to "\n" or "\r\n".
