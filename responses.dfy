/**
 * The Responses API engine: the request and response records, input
 * flattening, the canned replies, the built-in search results, the
 * configuration-driven resolution of a reply, output assembly, usage and
 * the word-by-word delta stream.
 */
module ResponsesApi {
  import opened Wrappers
  import opened GoStrings
  import opened Config
  import opened Http

  // ---------------------------------------------------------------------------
  // Records
  // ---------------------------------------------------------------------------

  /** The `content` of an input element: a string, an array of parts, or anything else. */
  datatype Content = TextContent(text: string) | PartsContent | OtherContent

  /** An element of an `input` array: an object with or without `content`, or a non-object value. */
  datatype InputItem = ObjectItem(content: Option<Content>) | OtherItem

  /** The `input` field: a string, an array, or a value of any other JSON type. */
  datatype Input = TextInput(text: string) | ItemsInput(items: seq<InputItem>) | OtherInput

  datatype Tool = Tool(kind: string)

  /** The request fields the server reads (`instructions`, `temperature` and the rest are ignored by it). */
  datatype ResponsesCreateRequest = ResponsesCreateRequest(
    model: string,
    input: Input,
    tools: seq<Tool>,
    stream: Option<bool>,
    previousResponseId: string)

  /** A content part; annotations reuse the configuration's record (their JSON `index` is always null). */
  datatype ContentObject = ContentObject(kind: string, text: string, annotations: seq<AnnotationOut>)

  datatype OutputObject = OutputObject(id: string, kind: string, status: string, content: seq<ContentObject>)

  datatype Usage = Usage(promptTokens: int, completionTokens: int, totalTokens: int)

  datatype ResponsesResponse = ResponsesResponse(
    id: string,
    objectType: string,
    created: int,
    model: string,
    output: seq<OutputObject>,
    usage: Usage)

  datatype ResolvedResponse = ResolvedResponse(text: string, prefixTools: seq<OutputObject>, annotations: seq<AnnotationOut>)

  /** The two results of the resolver: no resolution (nil, nil), a resolution, or an injected error. */
  datatype Resolution = Unresolved | Resolved(response: ResolvedResponse) | Failed(error: ErrorOut)

  // ---------------------------------------------------------------------------
  // Identifiers
  // ---------------------------------------------------------------------------

  /** `<prefix><unix seconds>_<rand.Intn(10000)>`. */
  function GenerateId(prefix: string, unix: int, draw: nat): string
  {
    prefix + IntToString(unix) + "_" + NatToString(draw % 10000)
  }

  function ResponseId(env: Env): string { GenerateId("resp_", env.now, env.idDraw(0)) }
  function MessageId(env: Env): string { GenerateId("msg_", env.now, env.idDraw(1)) }
  /** The identifier of the k-th tool call minted while answering one request. */
  function ToolCallId(env: Env, k: nat): string { GenerateId("ws_", env.now, env.idDraw(2 + k)) }

  /**
   * Identifiers minted in the same second collide exactly when the two
   * draws agree modulo 10000: nothing makes them unique.
   */
  lemma GenerateIdCollides(prefix: string, unix: int, d1: nat, d2: nat)
    ensures GenerateId(prefix, unix, d1) == GenerateId(prefix, unix, d2) <==> d1 % 10000 == d2 % 10000
    ensures HasPrefix(GenerateId(prefix, unix, d1), prefix)
  {
    var p := prefix + IntToString(unix) + "_";
    var a := NatToString(d1 % 10000);
    var b := NatToString(d2 % 10000);
    assert GenerateId(prefix, unix, d1) == p + a;
    assert GenerateId(prefix, unix, d2) == p + b;
    if p + a == p + b {
      assert a == (p + a)[|p|..] && b == (p + b)[|p|..];
      NatToStringDigits(d1 % 10000);
      NatToStringDigits(d2 % 10000);
    }
    assert (p + a)[..|prefix|] == prefix;
  }

  // ---------------------------------------------------------------------------
  // Input flattening
  // ---------------------------------------------------------------------------

  /** What one array element contributes: its string content and one space, or nothing. */
  function ItemText(item: InputItem): string
  {
    if item.ObjectItem? && item.content.Some? && item.content.value.TextContent? then
      item.content.value.text + " "
    else ""
  }

  function FlattenItems(items: seq<InputItem>): string
    decreases |items|
  {
    if items == [] then "" else FlattenItems(items[..|items| - 1]) + ItemText(items[|items| - 1])
  }

  /** The prompt string: a string input verbatim, an array flattened, anything else empty. */
  function Flatten(input: Input): string
  {
    match input
    case TextInput(s) => s
    case ItemsInput(items) => FlattenItems(items)
    case OtherInput => ""
  }

  /** The string contents of an input array, in order. */
  function TextContents(items: seq<InputItem>): seq<string>
    decreases |items|
  {
    if items == [] then []
    else
      var last := items[|items| - 1];
      if ItemText(last) == "" then TextContents(items[..|items| - 1])
      else TextContents(items[..|items| - 1]) + [last.content.value.text]
  }

  lemma FlattenItemsStep(items: seq<InputItem>, i: nat)
    requires i < |items|
    ensures FlattenItems(items[..i + 1]) == FlattenItems(items[..i]) + ItemText(items[i])
  {
    assert items[..i + 1][..i] == items[..i];
  }

  method FlattenInput(input: Input) returns (s: string)
    ensures s == Flatten(input)
  {
    s := "";
    match input {
      case TextInput(t) =>
        s := t;
      case ItemsInput(items) =>
        for i := 0 to |items|
          invariant s == FlattenItems(items[..i])
        {
          FlattenItemsStep(items, i);
          var item := items[i];
          if item.ObjectItem? && item.content.Some? {
            match item.content.value {
              case TextContent(c) =>
                s := s + c + " ";
              case PartsContent =>
              case OtherContent =>
            }
          }
        }
        assert items[..|items|] == items;
      case OtherInput =>
    }
  }

  /**
   * An input array flattens to its string contents joined by single spaces,
   * with one trailing space; image parts and non-object elements contribute nothing.
   */
  lemma {:induction false} FlattenItemsIsJoin(items: seq<InputItem>)
    ensures FlattenItems(items) == if TextContents(items) == [] then "" else Join(TextContents(items), " ") + " "
    decreases |items|
  {
    if items != [] {
      var init := items[..|items| - 1];
      var last := items[|items| - 1];
      FlattenItemsIsJoin(init);
      if ItemText(last) != "" && TextContents(init) != [] {
        JoinSnoc(TextContents(init), last.content.value.text, " ");
      }
    }
  }

  /** The word count of a flattened array is the sum of the word counts of its string contents. */
  lemma FlattenItemsWordCount(items: seq<InputItem>)
    ensures |Fields(FlattenItems(items))| == WordCountAll(TextContents(items))
  {
    FlattenItemsIsJoin(items);
    var ts := TextContents(items);
    if ts != [] {
      var j := Join(ts, " ");
      assert j + " " == j + [' '] + [];
      FieldsConcatSpace(j, ' ', []);
      WordCountOfJoin(ts, ' ');
    }
  }

  // ---------------------------------------------------------------------------
  // Canned replies
  // ---------------------------------------------------------------------------

  // The long replies are written in pieces so that their leading characters stay cheap to reason about.

  const Jokes: seq<string> := [
    "Why don't scientists trust atoms? " + "Because they make up everything!",
    "Why did the scarecrow win an award? " + "Because he was outstanding in his field!",
    "Why don't skeletons fight each other? " + "They don't have the guts!",
    "What do you call a fake noodle? " + "An impasta!"]

  const WeatherReply :=
    "I'm a mock API, so I can't provide " + "real weather data. "
    + "But I can tell you it's always sunny " + "in the world of mock responses!"

  const NewsReply :=
    "Here are some mock news headlines: " + "'AI Continues to Advance', "
    + "'Mock APIs Prove Useful for Development', " + "'Developers Love Testing with Fake Data'."

  const GreetingReply := "Hello! I'm a mock OpenAI Responses API. " + "How can I help you today?"

  function DefaultReply(input: string): string
  {
    "This is a mock response to your input: '" + input + "'. The Responses API is working correctly!"
  }

  /** The canned reply for a flattened input; `draw` stands for `rand.Intn(4)`. */
  function MockResponse(input: string, draw: nat): string
  {
    var lower := ToLower(input);
    if Contains(lower, "joke") then Jokes[draw % |Jokes|]
    else if Contains(lower, "weather") then WeatherReply
    else if Contains(lower, "news") || Contains(lower, "latest") then NewsReply
    else if Contains(lower, "hello") || Contains(lower, "hi") then GreetingReply
    else DefaultReply(input)
  }

  /**
   * Which reply comes back, in both directions, the keywords being matched
   * ignoring ASCII case: a joke exactly when "joke" occurs; the weather text
   * exactly when "weather" does and "joke" does not; the headlines exactly
   * for "news" or "latest" without the earlier keywords; the greeting for
   * "hello" or "hi" without the earlier ones; otherwise the default text,
   * which quotes the input verbatim.
   */
  lemma MockResponseSelects(input: string, draw: nat)
    ensures var lower := ToLower(input); var r := MockResponse(input, draw);
      && (r in Jokes <==> Contains(lower, "joke"))
      && (r == WeatherReply <==> !Contains(lower, "joke") && Contains(lower, "weather"))
      && (r == NewsReply <==>
            !Contains(lower, "joke") && !Contains(lower, "weather") && (Contains(lower, "news") || Contains(lower, "latest")))
      && (r == GreetingReply <==>
            !Contains(lower, "joke") && !Contains(lower, "weather") && !Contains(lower, "news") && !Contains(lower, "latest")
            && (Contains(lower, "hello") || Contains(lower, "hi")))
      && (r == DefaultReply(input) <==>
            !Contains(lower, "joke") && !Contains(lower, "weather") && !Contains(lower, "news") && !Contains(lower, "latest")
            && !Contains(lower, "hello") && !Contains(lower, "hi"))
      && (r == DefaultReply(input) ==> Contains(r, input))
  {
    CannedRepliesDistinct(input);
    if MockResponse(input, draw) == DefaultReply(input) {
      ContainsInfix("This is a mock response to your input: '", input, "'. The Responses API is working correctly!");
    }
  }

  /** The canned replies differ from each other, told apart by their first letters. */
  lemma CannedRepliesDistinct(input: string)
    ensures WeatherReply !in Jokes && NewsReply !in Jokes && GreetingReply !in Jokes && DefaultReply(input) !in Jokes
    ensures WeatherReply != NewsReply && WeatherReply != GreetingReply && NewsReply != GreetingReply
    ensures DefaultReply(input) != WeatherReply && DefaultReply(input) != NewsReply && DefaultReply(input) != GreetingReply
  {
    var d := DefaultReply(input);
    assert d[0] == 'T';
    assert Jokes[0][0] == 'W' && Jokes[1][0] == 'W' && Jokes[2][0] == 'W' && Jokes[3][0] == 'W';
    assert WeatherReply[0] == 'I' && NewsReply[0] == 'H' && GreetingReply[0] == 'H';
    assert NewsReply[2] == 'r' && GreetingReply[2] == 'l';
  }

  // ---------------------------------------------------------------------------
  // Built-in search results
  // ---------------------------------------------------------------------------

  const WebSearchText := "Based on my web search, here are the latest developments: Mock search results show that AI technology continues to advance rapidly. Recent breakthroughs include improved language models and better integration capabilities."

  const FileSearchText := "Based on the uploaded documents, I found relevant information about your query. The documents contain detailed specifications and examples that match your request."

  /** The final `message` item: one text part carrying the annotations. */
  function MessageItem(id: string, text: string, annotations: seq<AnnotationOut>): OutputObject
  {
    OutputObject(id, "message", "", [ContentObject("text", text, annotations)])
  }

  function WebSearchResults(callId: string, messageId: string): seq<OutputObject>
  {
    [OutputObject(callId, "web_search_call", "completed", []), MessageItem(messageId, WebSearchText, WebSearchMessage.annotations)]
  }

  function FileSearchResults(callId: string, messageId: string): seq<OutputObject>
  {
    [OutputObject(callId, "file_search_call", "completed", []), MessageItem(messageId, FileSearchText, FileSearchMessage.annotations)]
  }

  predicate RequestsWebSearch(tools: seq<Tool>)
  {
    exists t :: t in tools && (t.kind == "web_search" || t.kind == "web_search_preview")
  }

  predicate RequestsFileSearch(tools: seq<Tool>)
  {
    exists t :: t in tools && t.kind == "file_search"
  }

  /** The scan over the requested tools. */
  method RequestedSearchTools(tools: seq<Tool>) returns (web: bool, file: bool)
    ensures web <==> RequestsWebSearch(tools)
    ensures file <==> RequestsFileSearch(tools)
  {
    web, file := false, false;
    for i := 0 to |tools|
      invariant web <==> exists j :: 0 <= j < i && (tools[j].kind == "web_search" || tools[j].kind == "web_search_preview")
      invariant file <==> exists j :: 0 <= j < i && tools[j].kind == "file_search"
    {
      if tools[i].kind == "web_search" || tools[i].kind == "web_search_preview" {
        web := true;
      }
      if tools[i].kind == "file_search" {
        file := true;
      }
    }
  }

  // ---------------------------------------------------------------------------
  // Tool aggregation (shared with the chat endpoint)
  // ---------------------------------------------------------------------------

  /** The registered definitions of the enabled tools among `names`, in order. */
  function UsableTools(cfg: Option<BotConfig>, names: seq<string>): seq<ToolDef>
    decreases |names|
  {
    if names == [] then []
    else
      var rest := UsableTools(cfg, names[..|names| - 1]);
      var n := names[|names| - 1];
      if IsToolEnabled(cfg, n) && GetToolDef(cfg, n).Some? then rest + [GetToolDef(cfg, n).value] else rest
  }

  /** Every usable tool is the registry entry of an enabled name among those asked for. */
  lemma {:induction false} UsableToolsAreRegistered(cfg: Option<BotConfig>, names: seq<string>)
    ensures |UsableTools(cfg, names)| <= |names|
    ensures forall d :: d in UsableTools(cfg, names) ==>
      exists n :: n in names && IsToolEnabled(cfg, n) && cfg.Some? && n in cfg.value.tools.registry
        && cfg.value.tools.registry[n] == d
    decreases |names|
  {
    if names != [] {
      var init := names[..|names| - 1];
      UsableToolsAreRegistered(cfg, init);
      forall d | d in UsableTools(cfg, names)
        ensures exists n :: (n in names && IsToolEnabled(cfg, n) && cfg.Some? && n in cfg.value.tools.registry
          && cfg.value.tools.registry[n] == d)
      {
        if d in UsableTools(cfg, init) {
          var n :| n in init && IsToolEnabled(cfg, n) && cfg.Some? && n in cfg.value.tools.registry
            && cfg.value.tools.registry[n] == d;
          assert n in names;
        } else {
          assert names[|names| - 1] in names;
        }
      }
    }
  }

  /** The rendered message texts of the tools that have a message. */
  function ToolTexts(defs: seq<ToolDef>, ctx: map<string, string>, order: seq<string>): seq<string>
    decreases |defs|
  {
    if defs == [] then []
    else
      var rest := ToolTexts(defs[..|defs| - 1], ctx, order);
      var d := defs[|defs| - 1];
      if d.message.Some? then rest + [Render(d.message.value.text, ctx, order)] else rest
  }

  /** The annotations of the tools' messages, in order. */
  function ToolAnnotations(defs: seq<ToolDef>): seq<AnnotationOut>
    decreases |defs|
  {
    if defs == [] then []
    else
      var d := defs[|defs| - 1];
      ToolAnnotations(defs[..|defs| - 1]) + (if d.message.Some? then d.message.value.annotations else [])
  }

  /** Append a non-empty text on a new line (no separator before the first). */
  function AppendLine(acc: string, t: string): string
  {
    if t == "" then acc else if acc == "" then t else acc + "\n" + t
  }

  function AggregateLines(ts: seq<string>): string
    decreases |ts|
  {
    if ts == [] then "" else AppendLine(AggregateLines(ts[..|ts| - 1]), ts[|ts| - 1])
  }

  function NonEmptyTexts(ts: seq<string>): seq<string>
    decreases |ts|
  {
    if ts == [] then []
    else if ts[|ts| - 1] == "" then NonEmptyTexts(ts[..|ts| - 1])
    else NonEmptyTexts(ts[..|ts| - 1]) + [ts[|ts| - 1]]
  }

  /** The aggregated tool text is the non-empty texts joined by newlines. */
  lemma {:induction false} AggregateLinesIsJoin(ts: seq<string>)
    ensures AggregateLines(ts) == Join(NonEmptyTexts(ts), "\n")
    ensures AggregateLines(ts) == "" <==> NonEmptyTexts(ts) == []
    decreases |ts|
  {
    if ts != [] {
      var init := ts[..|ts| - 1];
      AggregateLinesIsJoin(init);
      if ts[|ts| - 1] != "" && NonEmptyTexts(init) != [] {
        JoinSnoc(NonEmptyTexts(init), ts[|ts| - 1], "\n");
      }
    }
  }

  function CallOf(d: ToolDef): ToolOut { ToolOut(d.callType, d.status) }

  function Calls(defs: seq<ToolDef>): seq<ToolOut>
    decreases |defs|
  {
    if defs == [] then [] else Calls(defs[..|defs| - 1]) + [CallOf(defs[|defs| - 1])]
  }

  /** The k-th tool-call item of a request. */
  function CallItem(env: Env, k: nat, c: ToolOut): OutputObject
  {
    OutputObject(ToolCallId(env, k), c.kind, c.status, [])
  }

  /** Tool-call output items, one per call; the k-th gets the k-th tool-call identifier. */
  function CallItems(calls: seq<ToolOut>, env: Env): seq<OutputObject>
  {
    seq(|calls|, k requires 0 <= k < |calls| => CallItem(env, k, calls[k]))
  }

  // ---------------------------------------------------------------------------
  // Configuration-driven resolution
  // ---------------------------------------------------------------------------

  /** A matched rule's message text: its rendered message text, else its rendered pick, else the tool texts. */
  function RuleText(cfg: Option<BotConfig>, respond: RespondWrapper, ctx: map<string, string>, env: Env): string
  {
    var chosen := PickedText(respond, env.ruleDraw);
    if respond.message.text != "" then Render(respond.message.text, ctx, env.order)
    else if chosen != "" then Render(chosen, ctx, env.order)
    else AggregateLines(ToolTexts(UsableTools(cfg, respond.useTools), ctx, env.order))
  }

  /** A matched rule's tool calls: those of its usable tools, then its explicit ones. */
  function RuleCalls(cfg: Option<BotConfig>, respond: RespondWrapper, env: Env): seq<OutputObject>
  {
    CallItems(Calls(UsableTools(cfg, respond.useTools)) + respond.tools, env)
  }

  /** A matched rule's reply: tool calls, the message text by precedence, and the merged annotations. */
  function RuleResolution(cfg: Option<BotConfig>, respond: RespondWrapper, ctx: map<string, string>, env: Env): ResolvedResponse
  {
    ResolvedResponse(RuleText(cfg, respond, ctx, env), RuleCalls(cfg, respond, env),
                     ToolAnnotations(UsableTools(cfg, respond.useTools)) + respond.message.annotations)
  }

  /** The resolver: rule lookup on the trimmed prompt, then the fallback, then nothing. */
  function ResolvedContent(cfg: Option<BotConfig>, model: string, input: Input, env: Env): Resolution
  {
    if cfg.None? then Unresolved
    else
      var ctx := TemplateContext(cfg, model, LastUserText(input), LastUserText(input), env.timestamp);
      MatchOutcome(cfg, Evaluate(cfg, ResponsesQuery(model, input), env), ctx, env)
  }

  /**
   * The outcome once the rules are evaluated: the selected rule's injected
   * error or resolved response, or without a match the rendered fallback,
   * or nothing when the fallback has no text.
   */
  function MatchOutcome(cfg: Option<BotConfig>, m: Option<MatchedRule>, ctx: map<string, string>, env: Env): Resolution
    requires cfg.Some?
  {
    match m
    case None => FallbackResolution(cfg.value.fallback, ctx, env)
    case Some(matched) => RuleOutcome(cfg, matched.rule.respond, ctx, env)
  }

  /** The trimmed flattened input, which stands for both the last user message and the full text. */
  function LastUserText(input: Input): string
  {
    TrimSpace(Flatten(input))
  }

  /** The query the rules are evaluated against for a Responses request. */
  function ResponsesQuery(model: string, input: Input): Query
  {
    Query("responses", model, "", LastUserText(input), LastUserText(input))
  }

  /** With no rule matched: the rendered fallback when it has any text, else no resolution. */
  function FallbackResolution(fb: RespondWrapper, ctx: map<string, string>, env: Env): Resolution
  {
    if fb.text != "" || fb.message.text != "" then
      Resolved(ResolvedResponse(Render(PickedText(fb, env.fallbackDraw), ctx, env.order), [], []))
    else Unresolved
  }

  /** With a rule matched: its injected error, else its resolved response. */
  function RuleOutcome(cfg: Option<BotConfig>, respond: RespondWrapper, ctx: map<string, string>, env: Env): Resolution
  {
    if respond.error.Some? then Failed(respond.error.value)
    else Resolved(RuleResolution(cfg, respond, ctx, env))
  }

  /** How the aggregates grow when one more usable tool is appended. */
  lemma ExtendDefs(defs: seq<ToolDef>, d: ToolDef, ctx: map<string, string>, order: seq<string>, env: Env)
    ensures CallItems(Calls(defs + [d]), env)
      == CallItems(Calls(defs), env) + [CallItem(env, |Calls(defs)|, CallOf(d))]
    ensures ToolTexts(defs + [d], ctx, order)
      == ToolTexts(defs, ctx, order) + (if d.message.Some? then [Render(d.message.value.text, ctx, order)] else [])
    ensures ToolAnnotations(defs + [d]) == ToolAnnotations(defs) + (if d.message.Some? then d.message.value.annotations else [])
  {
    assert (defs + [d])[..|defs|] == defs;
    CallItemsSnoc(Calls(defs), CallOf(d), env);
  }

  lemma AggregateLinesSnoc(ts: seq<string>, t: string)
    ensures AggregateLines(ts + [t]) == AppendLine(AggregateLines(ts), t)
  {
    assert (ts + [t])[..|ts|] == ts;
  }

  lemma UsableToolsSnoc(cfg: Option<BotConfig>, names: seq<string>, i: nat)
    requires i < |names|
    ensures UsableTools(cfg, names[..i + 1]) ==
      UsableTools(cfg, names[..i])
      + (if IsToolEnabled(cfg, names[i]) && GetToolDef(cfg, names[i]).Some? then [GetToolDef(cfg, names[i]).value] else [])
  {
    assert names[..i + 1][..i] == names[..i];
  }

  /** The `use_tools` loop: tool calls, the accumulated text and the accumulated annotations. */
  method CollectTools(cfg: Option<BotConfig>, names: seq<string>, ctx: map<string, string>, env: Env)
    returns (prefix: seq<OutputObject>, text: string, annotations: seq<AnnotationOut>)
    requires IsEnumeration(env.order, ctx.Keys)
    ensures prefix == CallItems(Calls(UsableTools(cfg, names)), env)
    ensures text == AggregateLines(ToolTexts(UsableTools(cfg, names), ctx, env.order))
    ensures annotations == ToolAnnotations(UsableTools(cfg, names))
  {
    prefix, text, annotations := [], "", [];
    ghost var defs: seq<ToolDef> := [];
    for i := 0 to |names|
      invariant defs == UsableTools(cfg, names[..i])
      invariant prefix == CallItems(Calls(defs), env)
      invariant text == AggregateLines(ToolTexts(defs, ctx, env.order))
      invariant annotations == ToolAnnotations(defs)
    {
      UsableToolsSnoc(cfg, names, i);
      var def := GetToolDef(cfg, names[i]);
      if IsToolEnabled(cfg, names[i]) && def.Some? {
        prefix, text, annotations := AddTool(prefix, text, annotations, defs, def.value, ctx, env);
        defs := defs + [def.value];
      }
    }
    assert names[..|names|] == names;
  }

  /** One usable tool: its call item, its rendered message text on a new line, and its annotations. */
  method AddTool(prefix: seq<OutputObject>, text: string, annotations: seq<AnnotationOut>, ghost defs: seq<ToolDef>,
                 d: ToolDef, ctx: map<string, string>, env: Env)
    returns (prefix': seq<OutputObject>, text': string, annotations': seq<AnnotationOut>)
    requires IsEnumeration(env.order, ctx.Keys)
    requires prefix == CallItems(Calls(defs), env)
    requires text == AggregateLines(ToolTexts(defs, ctx, env.order))
    requires annotations == ToolAnnotations(defs)
    ensures prefix' == CallItems(Calls(defs + [d]), env)
    ensures text' == AggregateLines(ToolTexts(defs + [d], ctx, env.order))
    ensures annotations' == ToolAnnotations(defs + [d])
  {
    ExtendDefs(defs, d, ctx, env.order, env);
    prefix' := prefix + [CallItem(env, |prefix|, CallOf(d))];
    text', annotations' := text, annotations;
    if d.message.Some? {
      var t := RenderTemplate(d.message.value.text, ctx, env.order);
      AggregateLinesSnoc(ToolTexts(defs, ctx, env.order), t);
      if t != "" {
        if text' != "" {
          text' := text' + "\n";
        }
        text' := text' + t;
      }
      annotations' := annotations' + d.message.value.annotations;
    }
  }

  lemma CallItemsSnoc(calls: seq<ToolOut>, c: ToolOut, env: Env)
    ensures CallItems(calls + [c], env) == CallItems(calls, env) + [CallItem(env, |calls|, c)]
  {
    var grown := CallItems(calls + [c], env);
    var appended := CallItems(calls, env) + [CallItem(env, |calls|, c)];
    forall k | 0 <= k < |grown|
      ensures grown[k] == appended[k]
    {
      if k < |calls| {
        assert (calls + [c])[k] == calls[k];
      }
    }
  }

  /** The explicit `tools` loop: one more tool call per configured call. */
  method AppendExplicitCalls(prefix: seq<OutputObject>, ghost calls: seq<ToolOut>, tools: seq<ToolOut>, env: Env)
    returns (out: seq<OutputObject>)
    requires prefix == CallItems(calls, env)
    ensures out == CallItems(calls + tools, env)
  {
    out := prefix;
    assert calls + tools[..0] == calls;
    for j := 0 to |tools|
      invariant out == CallItems(calls + tools[..j], env)
    {
      CallItemsAppendStep(calls, tools, j, env);
      assert |out| == |calls| + j;
      out := out + [CallItem(env, |out|, tools[j])];
    }
    assert tools[..|tools|] == tools;
  }

  lemma CallItemsAppendStep(calls: seq<ToolOut>, tools: seq<ToolOut>, j: nat, env: Env)
    requires j < |tools|
    ensures CallItems(calls + tools[..j + 1], env)
      == CallItems(calls + tools[..j], env) + [CallItem(env, |calls| + j, tools[j])]
  {
    var done := calls + tools[..j];
    assert tools[..j + 1] == tools[..j] + [tools[j]];
    assert calls + tools[..j + 1] == done + [tools[j]];
    CallItemsSnoc(done, tools[j], env);
  }


  /** The reply of a matched rule without an injected error. */
  method ResolveRule(cfg: Option<BotConfig>, respond: RespondWrapper, ctx: map<string, string>, env: Env)
    returns (r: ResolvedResponse)
    requires IsEnumeration(env.order, ctx.Keys)
    ensures r == RuleResolution(cfg, respond, ctx, env)
  {
    var prefix, accumulated, annotations := CollectTools(cfg, respond.useTools, ctx, env);
    prefix := AppendExplicitCalls(prefix, Calls(UsableTools(cfg, respond.useTools)), respond.tools, env);
    var chosen := PickText(respond, env.ruleDraw);
    var text: string;
    if respond.message.text != "" {
      text := RenderTemplate(respond.message.text, ctx, env.order);
    } else if chosen != "" {
      text := RenderTemplate(chosen, ctx, env.order);
    } else {
      text := accumulated;
    }
    assert text == RuleText(cfg, respond, ctx, env);
    r := ResolvedResponse(text, prefix, annotations + respond.message.annotations);
  }

  method ResolveResponsesContent(cfg: Option<BotConfig>, model: string, input: Input, env: Env) returns (res: Resolution)
    requires IsEnumeration(env.order, ContextKeys(cfg))
    ensures res == ResolvedContent(cfg, model, input, env)
  {
    if cfg.None? {
      return Unresolved;
    }
    var inputStr := FlattenInput(input);
    var lastUser := TrimSpace(inputStr);
    var full := lastUser;
    assert Query("responses", model, "", lastUser, full) == ResponsesQuery(model, input);
    var m := EvaluateRules(cfg, Query("responses", model, "", lastUser, full), env);
    ghost var ctx := TemplateContext(cfg, model, lastUser, full, env.timestamp);
    assert ResolvedContent(cfg, model, input, env) == MatchOutcome(cfg, m, ctx, env);
    if m.None? {
      res := ResolveFallback(cfg, model, lastUser, full, env);
    } else {
      res := ResolveMatched(cfg, model, m.value.rule.respond, lastUser, full, env);
    }
  }

  /** No rule matched: answer with the rendered fallback, if it has any text. */
  method ResolveFallback(cfg: Option<BotConfig>, model: string, lastUser: string, full: string, env: Env)
    returns (res: Resolution)
    requires cfg.Some? && IsEnumeration(env.order, ContextKeys(cfg))
    ensures res == FallbackResolution(cfg.value.fallback, TemplateContext(cfg, model, lastUser, full, env.timestamp), env)
  {
    var fb := cfg.value.fallback;
    if fb.text != "" || fb.message.text != "" {
      var txt := PickText(fb, env.fallbackDraw);
      var ctx := BuildTemplateContext(cfg, model, lastUser, full, env.timestamp);
      TemplateContextKeys(cfg, model, lastUser, full, env.timestamp);
      var rendered := RenderTemplate(txt, ctx, env.order);
      return Resolved(ResolvedResponse(rendered, [], []));
    }
    return Unresolved;
  }

  /** A rule matched: raise its injected error, else resolve its response. */
  method ResolveMatched(cfg: Option<BotConfig>, model: string, respond: RespondWrapper, lastUser: string, full: string, env: Env)
    returns (res: Resolution)
    requires IsEnumeration(env.order, ContextKeys(cfg))
    ensures res == RuleOutcome(cfg, respond, TemplateContext(cfg, model, lastUser, full, env.timestamp), env)
  {
    if respond.error.Some? {
      return Failed(respond.error.value);
    }
    var ctx := BuildTemplateContext(cfg, model, lastUser, full, env.timestamp);
    TemplateContextKeys(cfg, model, lastUser, full, env.timestamp);
    var r := ResolveRule(cfg, respond, ctx, env);
    return Resolved(r);
  }

  /**
   * The tool calls of usable tools `defs` and explicit calls `tools` (a
   * matched rule's `RuleCalls`): the tools' calls first, in order, with
   * their call type and status, then the explicit calls; the k-th call
   * gets the k-th tool-call identifier.
   */
  lemma {:induction false} CallItemsOfDefsThenTools(defs: seq<ToolDef>, tools: seq<ToolOut>, env: Env)
    ensures var items := CallItems(Calls(defs) + tools, env);
      && |items| == |defs| + |tools|
      && (forall k :: 0 <= k < |defs| ==>
            items[k] == OutputObject(ToolCallId(env, k), defs[k].callType, defs[k].status, []))
      && (forall j :: |defs| <= j < |items| ==>
            items[j] == OutputObject(ToolCallId(env, j), tools[j - |defs|].kind, tools[j - |defs|].status, []))
  {
    var calls := Calls(defs) + tools;
    var items := CallItems(calls, env);
    CallsOfDefs(defs);
    forall k | 0 <= k < |defs|
      ensures items[k] == OutputObject(ToolCallId(env, k), defs[k].callType, defs[k].status, [])
    {
      assert calls[k] == Calls(defs)[k];
    }
    forall j | |defs| <= j < |items|
      ensures items[j] == OutputObject(ToolCallId(env, j), tools[j - |defs|].kind, tools[j - |defs|].status, [])
    {
      assert calls[j] == tools[j - |defs|];
    }
  }

  /**
   * The message text of a matched rule: the rendered `message.text` if
   * set, else the rendered weighted or plain text if non-empty, else the
   * non-empty rendered tool texts joined by newlines.
   */
  lemma RuleResolutionText(cfg: Option<BotConfig>, respond: RespondWrapper, ctx: map<string, string>, env: Env)
    ensures var r := RuleResolution(cfg, respond, ctx, env);
      var chosen := PickedText(respond, env.ruleDraw);
      && (respond.message.text != "" ==> r.text == Render(respond.message.text, ctx, env.order))
      && (respond.message.text == "" && chosen != "" ==> r.text == Render(chosen, ctx, env.order))
      && (respond.message.text == "" && chosen == "" ==>
            r.text == Join(NonEmptyTexts(ToolTexts(UsableTools(cfg, respond.useTools), ctx, env.order)), "\n"))
  {
    AggregateLinesIsJoin(ToolTexts(UsableTools(cfg, respond.useTools), ctx, env.order));
  }

  lemma {:induction false} CallsOfDefs(defs: seq<ToolDef>)
    ensures |Calls(defs)| == |defs|
    ensures forall k :: 0 <= k < |defs| ==> Calls(defs)[k] == ToolOut(defs[k].callType, defs[k].status)
    decreases |defs|
  {
    if defs != [] {
      CallsOfDefs(defs[..|defs| - 1]);
    }
  }

  /** How the outcome depends on the match: an injected error fails, no match falls back. */
  lemma MatchOutcomeCases(cfg: Option<BotConfig>, m: Option<MatchedRule>, ctx: map<string, string>, env: Env)
    requires cfg.Some?
    ensures var r := MatchOutcome(cfg, m, ctx, env);
      && (r.Failed? <==> m.Some? && m.value.rule.respond.error.Some?)
      && (r.Failed? ==> r.error == m.value.rule.respond.error.value)
      && (r.Unresolved? <==> m.None? && cfg.value.fallback.text == "" && cfg.value.fallback.message.text == "")
      && (m.None? && r.Resolved? ==>
            && r.response.prefixTools == [] && r.response.annotations == []
            && r.response.text == Render(PickedText(cfg.value.fallback, env.fallbackDraw), ctx, env.order))
  {
  }

  /**
   * The resolver's outcomes: nothing without a configuration; an injected
   * error exactly when the selected rule carries one; the rendered fallback
   * when no rule matches and the fallback has a text or message text;
   * nothing when no rule matches and the fallback has neither.
   */
  lemma ResolvedContentCases(cfg: Option<BotConfig>, model: string, input: Input, env: Env)
    ensures var m := Evaluate(cfg, ResponsesQuery(model, input), env);
      var r := ResolvedContent(cfg, model, input, env);
      && (cfg.None? ==> r.Unresolved?)
      && (r.Failed? <==> cfg.Some? && m.Some? && m.value.rule.respond.error.Some?)
      && (r.Failed? ==> r.error == m.value.rule.respond.error.value)
      && (r.Unresolved? <==>
            cfg.None? || (m.None? && cfg.value.fallback.text == "" && cfg.value.fallback.message.text == ""))
  {
    if cfg.Some? {
      var ctx := TemplateContext(cfg, model, LastUserText(input), LastUserText(input), env.timestamp);
      var m := Evaluate(cfg, ResponsesQuery(model, input), env);
      ResolvedContentUnfold(cfg, model, input, env);
      MatchOutcomeCases(cfg, m, ctx, env);
    }
  }

  /** With a configuration, the resolver's outcome is the outcome of evaluating its query. */
  lemma ResolvedContentUnfold(cfg: Option<BotConfig>, model: string, input: Input, env: Env)
    requires cfg.Some?
    ensures ResolvedContent(cfg, model, input, env)
         == MatchOutcome(cfg, Evaluate(cfg, ResponsesQuery(model, input), env),
              TemplateContext(cfg, model, LastUserText(input), LastUserText(input), env.timestamp), env)
  {
  }

  /** With no rule matched, a resolved answer is the rendered fallback, with no tools and no annotations. */
  lemma ResolvedFallback(cfg: Option<BotConfig>, model: string, input: Input, env: Env)
    requires cfg.Some? && Evaluate(cfg, ResponsesQuery(model, input), env).None?
    ensures var r := ResolvedContent(cfg, model, input, env);
      r.Resolved? ==>
        && r.response.prefixTools == [] && r.response.annotations == []
        && r.response.text == Render(PickedText(cfg.value.fallback, env.fallbackDraw),
             TemplateContext(cfg, model, LastUserText(input), LastUserText(input), env.timestamp), env.order)
  {
    var ctx := TemplateContext(cfg, model, LastUserText(input), LastUserText(input), env.timestamp);
    ResolvedContentUnfold(cfg, model, input, env);
    MatchOutcomeCases(cfg, None, ctx, env);
  }

  // ---------------------------------------------------------------------------
  // Output assembly and usage
  // ---------------------------------------------------------------------------

  /** The output list when the resolver produced nothing: requested search tools, else the canned reply. */
  function LegacyOutput(req: ResponsesCreateRequest, env: Env): seq<OutputObject>
  {
    if RequestsWebSearch(req.tools) then WebSearchResults(ToolCallId(env, 0), MessageId(env))
    else if RequestsFileSearch(req.tools) then FileSearchResults(ToolCallId(env, 0), MessageId(env))
    else [MessageItem(MessageId(env), MockResponse(Flatten(req.input), env.jokeDraw), [])]
  }

  function AssembleOutput(req: ResponsesCreateRequest, resolution: Resolution, env: Env): (out: seq<OutputObject>)
    requires !resolution.Failed?
    ensures EndsWithMessage(out)
  {
    if resolution.Resolved? then
      var r := resolution.response;
      r.prefixTools + [MessageItem(MessageId(env), r.text, r.annotations)]
    else LegacyOutput(req, env)
  }

  /** The output ends with a `message` item holding exactly one text part. */
  predicate EndsWithMessage(output: seq<OutputObject>)
  {
    |output| > 0 && output[|output| - 1].kind == "message"
    && |output[|output| - 1].content| == 1 && output[|output| - 1].content[0].kind == "text"
  }

  /** The reply text: the text of the final message. */
  function ReplyText(output: seq<OutputObject>): string
    requires EndsWithMessage(output)
  {
    output[|output| - 1].content[0].text
  }

  /**
   * Every created response's output ends with a single-part `message`.
   * Resolved: the resolved tool calls in order, then the message with the
   * resolved text and annotations. Otherwise a requested `web_search` or
   * `web_search_preview` wins over `file_search`, and gives a completed
   * `web_search_call` and a message with two URL citations; `file_search`
   * gives a completed `file_search_call` and a message with two file
   * citations; with neither, the single message holds the canned reply.
   */
  lemma AssembleOutputShape(req: ResponsesCreateRequest, resolution: Resolution, env: Env)
    requires !resolution.Failed?
    ensures var out := AssembleOutput(req, resolution, env);
      && EndsWithMessage(out)
      && (resolution.Resolved? ==>
            out[..|out| - 1] == resolution.response.prefixTools
            && ReplyText(out) == resolution.response.text
            && out[|out| - 1].content[0].annotations == resolution.response.annotations)
      && (resolution.Unresolved? && RequestsWebSearch(req.tools) ==>
            |out| == 2 && out[0].kind == "web_search_call" && out[0].status == "completed"
            && ReplyText(out) == WebSearchText
            && |out[1].content[0].annotations| == 2
            && forall a :: a in out[1].content[0].annotations ==> a.kind == "url_citation")
      && (resolution.Unresolved? && !RequestsWebSearch(req.tools) && RequestsFileSearch(req.tools) ==>
            |out| == 2 && out[0].kind == "file_search_call" && out[0].status == "completed"
            && ReplyText(out) == FileSearchText
            && |out[1].content[0].annotations| == 2
            && forall a :: a in out[1].content[0].annotations ==> a.kind == "file_citation")
      && (resolution.Unresolved? && !RequestsWebSearch(req.tools) && !RequestsFileSearch(req.tools) ==>
            |out| == 1 && ReplyText(out) == MockResponse(Flatten(req.input), env.jokeDraw))
  {
    var out := AssembleOutput(req, resolution, env);
    if resolution.Resolved? {
      assert out[..|out| - 1] == resolution.response.prefixTools;
    }
  }

  /** The prompt context: the parent's history joined by newlines plus a newline, then the input. */
  function FullContext(parentHistory: Option<seq<string>>, inputStr: string): string
  {
    (if parentHistory.Some? then Join(parentHistory.value, "\n") + "\n" else "") + inputStr
  }

  function ResponseUsage(parentHistory: Option<seq<string>>, inputStr: string): Usage
  {
    var prompt := |Fields(FullContext(parentHistory, inputStr))|;
    Usage(prompt, 50, prompt + 50)
  }

  /**
   * Prompt tokens are the words of the parent's history plus the words of
   * the input (none from an absent parent); completion tokens are a fixed
   * 50; the total is their sum.
   */
  lemma ResponseUsageCounts(parentHistory: Option<seq<string>>, inputStr: string)
    ensures var u := ResponseUsage(parentHistory, inputStr);
      && u.promptTokens == (if parentHistory.Some? then WordCountAll(parentHistory.value) else 0) + |Fields(inputStr)|
      && u.completionTokens == 50
      && u.totalTokens == u.promptTokens + u.completionTokens
  {
    if parentHistory.None? {
      assert FullContext(parentHistory, inputStr) == inputStr;
    } else {
      var j := Join(parentHistory.value, "\n");
      assert FullContext(parentHistory, inputStr) == j + ['\n'] + inputStr;
      FieldsConcatSpace(j, '\n', inputStr);
      WordCountOfJoin(parentHistory.value, '\n');
    }
  }

  /** The response stored and returned for a request that resolved (or not) without an error. */
  function BuildResponse(req: ResponsesCreateRequest, resolution: Resolution, parentHistory: Option<seq<string>>, env: Env)
    : ResponsesResponse
    requires !resolution.Failed?
  {
    ResponsesResponse(
      ResponseId(env), "response", env.now, req.model,
      AssembleOutput(req, resolution, env),
      ResponseUsage(parentHistory, Flatten(req.input)))
  }

  // ---------------------------------------------------------------------------
  // Word-by-word streaming (shared with the chat endpoint)
  // ---------------------------------------------------------------------------

  /** One delta per word, each but the last followed by one space. */
  function WordDeltas(words: seq<string>): (ds: seq<string>)
    ensures |ds| == |words|
  {
    seq(|words|, i requires 0 <= i < |words| => if i < |words| - 1 then words[i] + " " else words[i])
  }

  /** The deltas concatenate to the words joined by single spaces. */
  lemma {:induction false} ConcatWordDeltas(words: seq<string>)
    ensures Concat(WordDeltas(words)) == Join(words, " ")
    decreases |words|
  {
    if |words| == 1 {
      assert WordDeltas(words)[1..] == [];
    } else if |words| > 1 {
      assert WordDeltas(words)[1..] == WordDeltas(words[1..]);
      ConcatWordDeltas(words[1..]);
    }
  }

  /** Re-tokenising the streamed text gives back exactly the words of the reply. */
  lemma StreamedWordsRoundTrip(text: string)
    ensures Fields(Concat(WordDeltas(Fields(text)))) == Fields(text)
  {
    ConcatWordDeltas(Fields(text));
    FieldsOfJoin(Fields(text));
  }

  datatype StreamEvent = OutputTextDelta(delta: string) | ResponseDone

  /** The text streamed: the resolved text when non-empty, else the canned reply (an injected error is ignored). */
  function StreamText(cfg: Option<BotConfig>, req: ResponsesCreateRequest, env: Env): string
  {
    var r := ResolvedContent(cfg, req.model, req.input, env);
    if r.Resolved? && r.response.text != "" then r.response.text else MockResponse(Flatten(req.input), env.jokeDraw)
  }

  /** The pause between deltas: the global chunk delay if configured, else 200 ms. */
  function ResponsesStreamDelayMs(cfg: Option<BotConfig>): int
  {
    if cfg.Some? && cfg.value.streaming.chunkDelayMs.Some? then cfg.value.streaming.chunkDelayMs.value else 200
  }

  /** The events for the words of a reply: one delta per word, then `response.done`. */
  function StreamEvents(words: seq<string>): seq<StreamEvent>
  {
    seq(|words|, i requires 0 <= i < |words| => OutputTextDelta(WordDeltas(words)[i])) + [ResponseDone]
  }

  /**
   * One delta event per word, each but the last followed by one space, then
   * a single `response.done`; the deltas concatenate to the words joined by
   * single spaces.
   */
  lemma StreamEventsShape(words: seq<string>)
    ensures var events := StreamEvents(words);
      && |events| == |words| + 1
      && (forall i :: 0 <= i < |words| - 1 ==> events[i] == OutputTextDelta(words[i] + " "))
      && (|words| > 0 ==> events[|words| - 1] == OutputTextDelta(words[|words| - 1]))
      && (forall i :: 0 <= i < |events| ==> (events[i] == ResponseDone <==> i == |words|))
      && Concat(WordDeltas(words)) == Join(words, " ")
  {
    ConcatWordDeltas(words);
  }

  method DeltaEvents(words: seq<string>) returns (events: seq<StreamEvent>)
    ensures events == StreamEvents(words)
  {
    events := [];
    for i := 0 to |words|
      invariant |events| == i
      invariant forall j :: 0 <= j < i ==> events[j] == OutputTextDelta(WordDeltas(words)[j])
    {
      var delta := words[i];
      if i < |words| - 1 {
        delta := delta + " ";
      }
      events := events + [OutputTextDelta(delta)];
    }
    events := events + [ResponseDone];
  }

  /** The bytes written for a streamed response: one `data:` frame per event, encoded with `encode`. */
  function ResponsesWire(events: seq<StreamEvent>, encode: StreamEvent -> string): string
  {
    EventStream(seq(|events|, i requires 0 <= i < |events| => encode(events[i])))
  }

  /**
   * A client reading the stream of a reply gets one event per word and then
   * the `response.done` event, each carrying its encoding, provided the
   * encoder writes no line breaks (as JSON encoding does not).
   */
  lemma ResponsesWireReadsBack(words: seq<string>, encode: StreamEvent -> string)
    requires forall e :: NoLineBreak(encode(e))
    ensures var events := StreamEvents(words);
      var read := ReadEvents(ResponsesWire(events, encode));
      && |read| == |words| + 1
      && (forall i :: 0 <= i < |words| ==> read[i] == encode(OutputTextDelta(WordDeltas(words)[i])))
      && read[|words|] == encode(ResponseDone)
  {
    var events := StreamEvents(words);
    ReadEventsOfStream(seq(|events|, i requires 0 <= i < |events| => encode(events[i])));
  }

  /** The event sequence of a streamed response, and the pause between deltas. */
  method StreamResponse(cfg: Option<BotConfig>, req: ResponsesCreateRequest, env: Env)
    returns (events: seq<StreamEvent>, delayMs: int)
    requires IsEnumeration(env.order, ContextKeys(cfg))
    ensures events == StreamEvents(Fields(StreamText(cfg, req, env)))
    ensures delayMs == ResponsesStreamDelayMs(cfg)
  {
    var resolved := ResolveResponsesContent(cfg, req.model, req.input, env);
    var text: string;
    if resolved.Resolved? && resolved.response.text != "" {
      text := resolved.response.text;
    } else {
      var inputStr := FlattenInput(req.input);
      text := MockResponse(inputStr, env.jokeDraw);
    }
    assert text == StreamText(cfg, req, env);
    delayMs := 200;
    if cfg.Some? && cfg.value.streaming.chunkDelayMs.Some? {
      delayMs := cfg.value.streaming.chunkDelayMs.value;
    }
    events := DeltaEvents(Fields(text));
  }
}
