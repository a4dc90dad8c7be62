# Mock OpenAI server: a verified model of its response engine

This project models the core of a mock OpenAI-compatible HTTP server written in Go. The server answers the Chat Completions API (`/v1/chat/completions`, `/v1/models`) and the Responses API (`/v1/responses`). It can reply with canned texts. It can also reply according to a YAML rule file that matches requests by endpoint, model, role, keywords, regex and probability. It also serves embedded Markdown help pages. The model covers four parts:

- **Responses API engine** (`responses.dfy`, `responses_store.dfy`, from `responses_api.go`):
  - input flattening;
  - the keyword-selected canned reply;
  - the config-driven resolution into tool-call items, a message text and annotations;
  - output assembly and usage counting;
  - the word-by-word event stream;
  - the in-memory response store with its conversation history, as a class with create, retrieve and list.
- **Chat Completions engine** (`chat.dfy`, from `main.go`):
  - the keyword-selected canned reply;
  - the conversation summary (last user message, last role, full text);
  - rule, fallback and built-in reply resolution;
  - token counting and the completion object;
  - the chunk stream;
  - the model list.
- **Rule and configuration engine** (`config.dfy`, from `pkg/server/config/config.go`):
  - rule evaluation;
  - weighted text choice and template rendering;
  - streaming-delay precedence;
  - the tool registry;
  - the string-or-list YAML field.
- **Help pages** (`help_docs.dfy`, from `pkg/docs/doc.go`):
  - front-matter splitting and title detection;
  - the slug-keyed index loaded from a directory listing, as a class;
  - the slug lookup of `GET /help/{slug}`.

Supporting modules:

- `go_strings.dfy` models the Go standard-library string functions the server uses: `strings.Fields`, `Join`, `TrimSpace`, `ToLower`, `Contains`, `SplitN`, `Split`, `ReplaceAll`, and `strconv.Atoi`/`Itoa`.
- `http.dfy` holds the plain-text error replies and the server-sent-events framing (`data: <payload>` followed by a blank line). It also holds a reader of that framing that follows section 9.2.5 ("Parsing an event stream") of the WHATWG HTML Living Standard.
- `wrappers.dfy` holds `Option` and `Result`.

Nondeterminism is passed in through `Config.Env`, one value per request. It has these fields:

- `now`: the Unix second;
- `idDraw`: the `rand.Intn(10000)` draws of the identifiers;
- `jokeDraw`, `ruleDraw` and `fallbackDraw`: the other `rand.Intn` draws, where `rand.Intn(n)` is `draw % n`;
- `coin`: the `rand.Float64()` probability draw;
- `regex`: an abstract regex engine;
- `order`: the iteration order of the template context map;
- `timestamp`: the RFC 3339 time string.

The YAML front-matter decoder of the help pages is a function parameter. A loop in the Go code is a `method` proved equal to a recursive specification function, and the properties are lemmas about those functions. The two global maps (`responseStore` with `conversationHistory`, and `helpIndex`) are classes whose methods state the new state.

## Model

| member | source | states |
|---|---|---|
| Config.UnmarshalStringOrSlice | pkg/server/config/config.go:47-68 | A scalar node decodes to a one-element list and a sequence node to its strings; decoding succeeds exactly for those. Any other node kind is the invalid-type error. |
| Config.ContainsString | pkg/server/config/config.go:170-177 | True exactly when the string is in the list. |
| Config.IsModelMatch | pkg/server/config/config.go:329-339 | True exactly when the candidate list is empty or contains the model. |
| Config.GetStreamingDelayMs | pkg/server/config/config.go:287-295 | The override's chunk delay if set, else the global one if set, else the default. |
| Config.IsToolEnabled | pkg/server/config/config.go:218-226 | True exactly when a configuration exists and its enabled list is empty or names the tool. |
| Config.GetToolDef | pkg/server/config/config.go:228-234 | Found exactly when a configuration exists and its registry has the name, and then it is that registry entry. |
| Config.EnsureDefaultTools | pkg/server/config/config.go:179-216 | The registry gains `web_search` and `file_search` with their defaults and keeps every existing entry unchanged. An empty enabled list becomes every registry key, once each, in some order; a non-empty one is kept. Nothing else changes. |
| Config.EnabledNames | pkg/server/config/config.go:210-215 | Collecting the registry keys gives every key exactly once and nothing else. |
| Config.SelectChoice | pkg/server/config/config.go:307-318 | With choices present, the scan returns an index in range. |
| Config.PickText | pkg/server/config/config.go:297-327 | The method's scan returns the same text as the `PickedText` specification for the same draw. |
| Config.AdjustedPrefixBounds | pkg/server/config/config.go:299-312 | Non-positive weights count as 1, so the cumulative scanned weight is at least the raw total and at least the number of choices scanned. |
| Config.AdjustedPrefixMonotone | pkg/server/config/config.go:308-317 | The cumulative scanned weight strictly increases from choice to choice. |
| Config.SelectChoiceBrackets | pkg/server/config/config.go:306-318 | A draw inside the scanned range selects the choice whose cumulative interval holds it. |
| Config.PickedTextIsBracketedChoice | pkg/server/config/config.go:297-327 | With choices present, the result is the text of the choice whose cumulative weights bracket `draw % bound`, so it is always one of the choices. Without choices it is `text` if non-empty, else the message text. |
| Config.BracketIsUnique | pkg/server/config/config.go:313-316 | At most one choice's interval holds a given draw. |
| Config.RenderTemplate | pkg/server/config/config.go:273-279 | The loop over the context keys, in a given iteration order, returns the same text as the `Render` specification. |
| Config.RenderWithoutPlaceholders | pkg/server/config/config.go:273-279 | A text holding no `{{key}}` of any context key is returned unchanged, whatever the order. This covers any text under an empty context. |
| Config.RenderReplacesPlaceholder | pkg/server/config/config.go:273-279 | A `{{key}}` of a context key is replaced by that key's value, whatever order the keys are visited in. This holds when the surrounding text, the value and the key itself contain no `{`, and no key contains `}`. |
| Config.BuildTemplateContext | pkg/server/config/config.go:412-425 | The method builds the same map as the `TemplateContext` specification. |
| Config.TemplateContextPrecedence | pkg/server/config/config.go:412-425 | The keys are the four built-ins plus the configured variables. A configured variable overrides the built-in of the same name; otherwise the built-in values hold. |
| Config.TemplateContextKeys | pkg/server/config/config.go:412-425 | The template context's keys are exactly the four built-in names plus the configured variable names. |
| Config.KeywordFound | pkg/server/config/config.go:361-375 | True exactly when some keyword occurs, ignoring ASCII case, in the last user message or the full text. |
| Config.EvaluateRules | pkg/server/config/config.go:343-409 | The rule loop with its early exit returns the same match as the `Evaluate` specification. |
| Config.ScanRulesSelects | pkg/server/config/config.go:401-407 | The scan's invariant carries over to its result: the first matching rule without `continue`, or the last match when every match continues. |
| Config.EvaluateSelects | pkg/server/config/config.go:341-409 | Nothing is selected exactly when there is no configuration or no rule matches. A selected rule matches, every matching rule before it has `continue`, and a selected rule with `continue` is the last match. Its delay follows the precedence with a default of 150. |
| Config.SelectedRulePassesFilters | pkg/server/config/config.go:343-375 | A selected rule passes every filter: the endpoint is empty or equal, the model list is empty or names the model, the role is empty or equal, the keyword list is empty or one keyword is present, and a non-empty regex compiles. |
| Config.GatesThatDecide | pkg/server/config/config.go:378-399 | A regex that does not compile, or a probability of at most 0, never matches. A probability of at least 1 is no gate. |
| ResponsesApi.GenerateIdCollides | responses_api.go:80-92 | Two identifiers minted in the same second are equal exactly when the draws agree modulo 10000, so they are not unique. Each starts with its prefix. |
| ResponsesApi.FlattenInput | responses_api.go:258-272 | The method flattens the input exactly as the `Flatten` specification does. |
| ResponsesApi.FlattenItemsIsJoin | responses_api.go:99-113 | An input array flattens to its string contents joined by single spaces, plus one trailing space. Other parts contribute nothing. |
| ResponsesApi.FlattenItemsWordCount | responses_api.go:258-273 | The words of a flattened array are the words of its string contents. |
| ResponsesApi.MockResponseSelects | responses_api.go:115-141 | Keyword precedence, ignoring ASCII case, in both directions: joke, then weather, then news or latest, then hello or hi, then the default. The default quotes the input verbatim. |
| ResponsesApi.RequestedSearchTools | responses_api.go:290-299 | The scan reports web search exactly when `web_search` or `web_search_preview` is requested, and file search exactly when `file_search` is. |
| ResponsesApi.UsableToolsAreRegistered | responses_api.go:509-511 | Every usable tool is the registry entry of an enabled name among those the rule asks for. |
| ResponsesApi.AggregateLinesIsJoin | responses_api.go:515-520 | The accumulated tool text is the non-empty texts joined by newlines. It is empty exactly when there are none. |
| ResponsesApi.ExtendDefs | responses_api.go:509-526 | One more usable tool appends one call item, its rendered message text if it has one, and its annotations. |
| ResponsesApi.AggregateLinesSnoc | responses_api.go:517-520 | One more text is appended on a new line, unless it is empty. |
| ResponsesApi.UsableToolsSnoc | responses_api.go:509-511 | One more name adds its registry entry exactly when it is enabled and registered. |
| ResponsesApi.CollectTools | responses_api.go:506-526 | The `use_tools` loop computes the call items, the accumulated text and the annotations of the usable tools. |
| ResponsesApi.AddTool | responses_api.go:508-522 | One usable tool appends its call item with the next tool-call identifier, its rendered message text on a new line when non-empty, and its annotations, as `CallItems`, `ToolTexts` and `ToolAnnotations` of the grown tool list say. |
| ResponsesApi.CallItemsSnoc | responses_api.go:529-531 | One more call appends one item with the next identifier. |
| ResponsesApi.AppendExplicitCalls | responses_api.go:528-531 | The explicit-tools loop appends the rule's calls after the usable tools' calls, numbered on. |
| ResponsesApi.ResolveRule | responses_api.go:502-550 | The method computes the `RuleResolution` of a matched rule. |
| ResponsesApi.ResolveResponsesContent | responses_api.go:461-551 | The method computes the `ResolvedContent` specification. |
| ResponsesApi.ResolveFallback | responses_api.go:489-497 | The no-match branch computes the `FallbackResolution` specification: the rendered fallback text, or nothing for an empty fallback. |
| ResponsesApi.ResolveMatched | responses_api.go:498-551 | The matched branch computes the `RuleOutcome` specification: the rule's injected error, or its resolved response. |
| ResponsesApi.CallItemsOfDefsThenTools | responses_api.go:506-531 | A matched rule's tool calls (`RuleCalls`) are the enabled, registered `use_tools` in order, with their call type and status, then its explicit calls; the k-th call carries the k-th tool-call identifier. |
| ResponsesApi.RuleResolutionText | responses_api.go:533-541 | Message-text precedence: the rendered `message.text`, else the rendered picked text, else the non-empty tool texts joined by newlines. |
| ResponsesApi.CallsOfDefs | responses_api.go:509-513 | Each usable tool gives one call, with its call type and status. |
| ResponsesApi.ResolvedContentCases | responses_api.go:461-551 | With no configuration there is no resolution. It fails exactly when the selected rule injects an error, and then carries that error. It resolves to nothing exactly when no rule matches and the fallback has neither a text nor a message text. |
| ResponsesApi.ResolvedFallback | responses_api.go:489-497 | With no rule matched, a resolved answer is the fallback's picked text rendered in the request's template context, with no tool calls and no annotations. |
| ResponsesApi.MatchOutcomeCases | responses_api.go:488-551 | For a given match: an error exactly when the matched rule injects one, carrying it; nothing exactly when there is no match and the fallback is empty; otherwise, with no match, the rendered fallback with no tools and no annotations. |
| ResponsesApi.AssembleOutput | responses_api.go:279-313 | The output always ends with a `message` item holding exactly one text part, which line 331 relies on. |
| ResponsesApi.AssembleOutputShape | responses_api.go:279-313 | Resolved: the resolved calls, then the message with the resolved text and annotations. Legacy: web search wins over file search and gives a completed call plus a message with two `url_citation` annotations; file search gives two `file_citation` annotations; otherwise a single message holds the canned reply. |
| ResponsesApi.ResponseUsageCounts | responses_api.go:250-326 | Prompt tokens are the words of the parent's history plus those of the input, with none for an absent parent. Completion tokens are 50, and the total is their sum. |
| ResponsesApi.WordDeltas | responses_api.go:368-376 | There is one delta per word. |
| ResponsesApi.ConcatWordDeltas | responses_api.go:368-376 | The deltas concatenate to the words joined by single spaces. |
| ResponsesApi.StreamedWordsRoundTrip | responses_api.go:360-376 | Splitting the streamed text into words again gives exactly the reply's words. |
| ResponsesApi.StreamEventsShape | responses_api.go:368-392 | One delta event per word, each but the last followed by a space, then exactly one `response.done` as the last event. |
| ResponsesApi.DeltaEvents | responses_api.go:368-392 | The streaming loop emits the `StreamEvents` of the words. |
| ResponsesApi.ResponsesWireReadsBack | responses_api.go:378-391 | A client reading the framed stream gets one event per word, then `response.done`, each carrying its encoding, as long as the encoder writes no line breaks. |
| ResponsesApi.StreamResponse | responses_api.go:352-367 | It streams the resolved text when non-empty, else the canned reply; an injected error is ignored. The pause is the global chunk delay, else 200 ms. |
| ResponsesStore.RecordKeepsConsistent | responses_api.go:330-331 | Storing a response keeps the store and history consistent. Each id keys a response with that id, whose output ends with a message, and an even-length history ending with that reply. |
| ResponsesStore.NewResponseContinuesParent | responses_api.go:250-331 | The new history is the parent's (empty for an unknown parent) plus the input and the reply, so it grows by exactly 2. Prompt tokens count the parent's history and the input. |
| ResponsesStore.ResponseStore.constructor | responses_api.go:330-331 | Both maps start empty and consistent. |
| ResponsesStore.ResponseStore.Create | responses_api.go:219-335 | A body that does not decode is a 400 and changes nothing; so does a streaming request, which gets the event stream, and an injected error, which gets the rule's status. Otherwise the new response is stored under its id, with its history. |
| ResponsesStore.ResponseStore.Record | responses_api.go:246-331 | It stores the built response under its id, with the parent's history plus the input and the reply text, and keeps consistency. |
| ResponsesStore.ResponseStore.Retrieve | responses_api.go:396-408 | It returns the stored response, or a 404 "Response not found" for an unknown id. |
| ResponsesStore.ResponseStore.List | responses_api.go:411-439 | It returns `limit` responses (default 20; a non-numeric limit is ignored; none for limit ≤ 0), or all when fewer. Each is distinct and drawn from the store, and the store is unchanged. |
| ResponsesStore.CreateThenRetrieve | responses_api.go:330-404 | After a non-streaming create succeeds, retrieving its id returns the created response. |
| ChatApi.ChatResponseSelects | main.go:91-124 | An empty conversation gets the greeting. Otherwise only the last message counts, with precedence joke > weather > hello/hi > streaming > default, in both directions. The default quotes that message verbatim. |
| ChatApi.ChatRepliesDistinct | main.go:91-124 | The canned replies differ from one another, whatever the quoted message. |
| ChatApi.FullText | main.go:342-349 | The full text is empty or ends with a newline. |
| ChatApi.BuildChatContext | main.go:342-349 | The message loop computes the last user content, the full text and the last role. |
| ChatApi.LastUserIsLatest | main.go:342-349 | The user text is the content of the last `user` message, or "" when there is none. |
| ChatApi.CountTokens | main.go:266-272 | The loop totals the word counts of all message contents. |
| ChatApi.AppendLineWords | main.go:342-349 | Appending a content line adds exactly its words. |
| ChatApi.TokenCountIsFullTextWords | main.go:266-272 | The prompt tokens are exactly the words of the full text the rules see. |
| ChatApi.RuleReplyLines | main.go:367-390 | A rule's text is the non-empty rendered tool texts, then the rendered picked text, one per line. Without a picked text, the tool texts alone, or nothing when they are empty too. |
| ChatApi.ChatReplyCases | main.go:340-401 | The delay is the rule's, else the global delay, else 150. An error, with empty text, comes exactly from an error rule. Otherwise the rule text, else the fallback, else the built-in reply answers. |
| ChatApi.AggregateToolTexts | main.go:367-377 | The `use_tools` loop accumulates the rendered tool texts line by line. |
| ChatApi.AddToolText | main.go:369-375 | One usable tool extends the aggregate by its rendered message text on a new line, when it has a message and the text is non-empty, as `ToolTexts` of the grown tool list says. |
| ChatApi.ResolveRuleText | main.go:366-390 | The method computes `RuleReply`. |
| ChatApi.ResolveFallback | main.go:391-400 | The method computes `FallbackReply`. |
| ChatApi.ResolveChatResponse | main.go:340-401 | The method computes the resolver's text, error and delay as `ChatReply`. |
| ChatApi.CompletionUsage | main.go:154-174 | There is exactly one choice (assistant, `stop`) holding the reply. Prompt tokens are the full text's words, completion tokens the reply's words, and the total is their sum. |
| ChatApi.ChatFrames | main.go:195-262 | A role chunk comes first, then one chunk per word (each but the last followed by a space), a `stop` chunk and `[DONE]`. Every chunk carries the completion id and the model. |
| ChatApi.FrameContents | main.go:218-234 | There is one content per frame. |
| ChatApi.FrameContentsAreDeltas | main.go:218-234 | The frames' contents concatenate to the word deltas. |
| ChatApi.ChatStreamRoundTrip | main.go:195-240 | The streamed contents concatenate to the words joined by single spaces, and splitting them gives back the reply's words. |
| ChatApi.ChatWireReadsBack | main.go:213-261 | A client reading the framed stream gets each chunk's encoding in order and then `[DONE]`, one event each, as long as the encoder writes no line breaks. |
| ChatApi.StreamWords | main.go:199-262 | The chunk loop emits `ChatFrames`. |
| ChatApi.HandleChatCompletions | main.go:127-178 | A body that does not decode is a 400. A streaming request gets the chunk stream of the resolved text with its delay, and its error is ignored. An injected error is answered with its status; otherwise the completion. |
| ChatApi.BuildCompletion | main.go:154-173 | The non-streaming answer is the `Completion` specification: one `stop` choice holding the reply, prompt tokens counted over the messages, completion tokens over the reply's words. |
| ChatApi.ModelList | main.go:275-292 | The configured models are listed one for one, in order, with their owners; otherwise exactly the three defaults, owned by `openai`. Each is a `model` created at 1677610602. |
| ChatApi.HandleModels | main.go:275-292 | The loop builds the `list` of `ModelList`. |
| Http.ReadEventsOfStream | main.go:259-261 | Under the standard's event-stream parsing, a client reads back exactly the payloads framed as `data: <payload>` and a blank line, in order, as long as none holds a line break. |
| HelpDocs.ParseHelpMarkdown | pkg/docs/doc.go:64-88 | The method computes `ParsedSection`. |
| HelpDocs.FindTitle | pkg/docs/doc.go:78-86 | The first-match loop returns `FirstHeading`. |
| HelpDocs.FirstHeadingIsFirst | pkg/docs/doc.go:78-86 | The title is the first line starting with "# " with that prefix removed, with no such line before it; "" when there is none. |
| HelpDocs.SplitFrontMatterCases | pkg/docs/doc.go:65-77 | A framed page keeps the decoder's metadata, and keeps its body only when decoding succeeds. An unframed page has empty metadata and is its own body. |
| HelpDocs.ParsedSectionTrimmed | pkg/docs/doc.go:77 | Parsing never fails, and the content is always trimmed. |
| HelpDocs.ParsedSectionContent | pkg/docs/doc.go:65-77 | The content is the trimmed text after the first "\n---\n" exactly when the trimmed page starts with "---\n", contains "\n---\n" and its front matter decodes; otherwise it is the whole trimmed page. |
| HelpDocs.ParsedSectionTitle | pkg/docs/doc.go:72-86 | The metadata comes from the front matter, even when decoding fails part-way. A front-matter title wins, else the first "# " heading of the content. |
| HelpDocs.IndexAfterStep | pkg/docs/doc.go:39-60 | Visiting one more entry stores its section under its slug if it is indexable, else changes nothing. |
| HelpDocs.IndexAfterSlugKeyed | pkg/docs/doc.go:55-59 | Every section stays stored under its own slug. |
| HelpDocs.IndexAfterKeys | pkg/docs/doc.go:39-60 | Directories, files not named `*.md` and unreadable files add nothing: every new slug comes from an indexable entry. |
| HelpDocs.IndexAfterLastWins | pkg/docs/doc.go:59 | A later page replaces an earlier one with the same slug: the last one stays. |
| HelpDocs.SlugFromFileName | pkg/docs/doc.go:55-58 | A page without a slug of its own is indexed under its file name without `.md`. |
| HelpDocs.HelpIndex.constructor | pkg/docs/doc.go:32 | The index starts empty. |
| HelpDocs.HelpIndex.Load | pkg/docs/doc.go:34-62 | A listing error is returned and changes nothing. Otherwise every indexable page is parsed and stored under its slug, in listing order. |
| HelpDocs.HelpIndex.GetSection | pkg/docs/doc.go:130 | Found exactly when the slug is indexed, and then it is the section stored under that slug. |
| HelpDocs.HelpIndex.HandleHelpGet | pkg/docs/doc.go:105-120 | The slug is the path after "/help/". "" and "help" are not found, nor is a slug missing from the index; otherwise it returns the indexed section. |

## Left out

- The HTTP server itself is not modelled:
  - request routing (`setupResponsesRoutes`, `startHttpServer`, `RegisterHelpRoutes`);
  - response writers and headers;
  - the CORS middleware, the `/health` handler and `http.Flusher`;
  - the `time.Sleep` pacing, kept only as the returned delay.
- JSON is not modelled. A body that does not decode is `None` in the model and maps to the 400. The stream payloads are given by an abstract encoder, assumed to write no line breaks, as Go's JSON encoder escapes them.
- The clock, `math/rand` and the RFC 3339 timestamp are inputs (`Config.Env`). The model reads the clock once per request, where the Go code calls `time.Now()` again for each `created` field.
- Floating point is not modelled. `rand.Float64()` and a rule's `probability` are real numbers in the model, not 64-bit floats. The gate `coin <= p` is stated exactly, but the float rounding of the coin and of `p` is left out. A YAML probability of `.nan` is not modelled: in Go it fails both `p <= 0` and `p < 1.0`, so such a rule always passes the gate.
- Config.PickText: choice weights and their running sums are unbounded integers. In Go, `total` and `sum + w` are 64-bit `int`s that wrap around once the weights total 2^63 or more. Weights `[MaxInt64, MaxInt64, 2]`, for instance, wrap to a total of 0, which is reset to 3, so Go always picks the first choice. The model instead picks by the true sums. The weighted-choice properties (`PickedTextIsBracketedChoice`, `BracketIsUnique`) hold for the unbounded sums only.
- ChatApi.CountTokens: token counts, and the sums in `ResponsesApi.ResponseUsageCounts`, are unbounded integers. Go's 64-bit `int` would wrap only past 2^63 words.
- Config.RenderTemplate: the replacement of placeholders is proved (`RenderReplacesPlaceholder`) for one placeholder, when the surrounding text, the value and the placeholder's key hold no `{`, and no key holds `}`. With several placeholders, or values that themselves hold placeholders, Go's result depends on the map's iteration order. The model then gives only the order-parametrised `Render`.
- The regex engine is an abstract compile/match pair.
- The YAML decoder is not modelled:
  - `LoadConfig` and `LoadConfigFromEnv` are left out;
  - the front-matter `yaml.Unmarshal` is an abstract decoder that yields metadata and a success flag;
  - `defaultConfig` is written out as a value and has no contract.
- The embedded file system is a directory listing whose entries hold the page text, or none when the file cannot be read.
- `handleHelpList` (JSON listing of the index in map order) is not modelled.
- The glazed help-system integration, the CLI entry points and the Python clients are not modelled.
- Concurrency is not modelled. The Go handlers touch the global maps without locks; the model is single-threaded.
- `strings.ToLower` is modelled on ASCII letters only. Other Unicode case mappings are not modelled.
- Go map iteration is an arbitrary order: a `:|` choice in `ResponseStore.List`, and the order of the enabled list in `EnsureDefaultTools`. For the template context, one key order (`Env.order`) serves every render within a request, where Go may visit the map in a different order each time.
- Conversation histories are values. Go's `append` on line 331 of `responses_api.go` may share one backing array between two children of the same parent; the model does not capture that aliasing.
- `ResponsesStore.ResponseStore.List` states which responses are returned, not in which order, because the Go code returns the store's map iteration order.
- The Go code does not make identifiers unique. `ResponsesApi.GenerateIdCollides` states when two of them collide. A create that collides overwrites the earlier entry, and the model does the same.
- An unknown or empty `previous_response_id` is not an error in the Go code. It contributes an empty history, and so it does in the model.
