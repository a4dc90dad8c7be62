/**
 * The Chat Completions endpoint (POST /v1/chat/completions) and the model
 * listing (GET /v1/models): the conversation summary the rules are matched
 * against, the configuration-driven reply with its fallbacks, the completion
 * object, the chunk stream and the built-in canned replies.
 */
module ChatApi {
  import opened Wrappers
  import opened GoStrings
  import opened Config
  import opened Http
  import opened ResponsesApi

  datatype Message = Message(role: string, content: string)

  /** The request fields the server reads; `temperature` and `max_tokens` are ignored. */
  datatype ChatCompletionRequest = ChatCompletionRequest(model: string, messages: seq<Message>, stream: Option<bool>)

  datatype Choice = Choice(index: int, message: Message, finishReason: string)

  datatype ChatCompletionResponse = ChatCompletionResponse(
    id: string,
    objectType: string,
    created: int,
    model: string,
    choices: seq<Choice>,
    usage: Usage)

  datatype Delta = Delta(role: string, content: string)

  /** One `chat.completion.chunk`; the server always sends a single choice, with index 0. */
  datatype StreamChunk = StreamChunk(
    id: string,
    objectType: string,
    created: int,
    model: string,
    index: int,
    delta: Delta,
    finishReason: string)

  /** One server-sent event of the chunk stream: a chunk, or the closing `[DONE]`. */
  datatype ChatFrame = ChunkFrame(chunk: StreamChunk) | DoneFrame

  datatype ModelEntry = ModelEntry(id: string, objectType: string, created: int, ownedBy: string)

  datatype ModelsResponse = ModelsResponse(objectType: string, data: seq<ModelEntry>)

  /** What the resolver hands back: the reply text, an injected error, and the pause between chunks. */
  datatype ChatResolution = ChatResolution(text: string, error: Option<ErrorOut>, delayMs: int)

  /** What the completions handler answers. */
  datatype ChatOutcome =
    | BadRequest(failure: HttpError)
    | RuleError(error: ErrorOut)
    | Completed(response: ChatCompletionResponse)
    | Streamed(frames: seq<ChatFrame>, delayMs: int)

  // ---------------------------------------------------------------------------
  // Built-in replies
  // ---------------------------------------------------------------------------

  // As in the Responses API, long replies are written in pieces so that
  // their leading characters stay cheap to reason about.

  const ChatJokes: seq<string> := [
    "Why don't scientists trust atoms? " + "Because they make up everything!",
    "Why did the scarecrow win an award? " + "Because he was outstanding in his field!",
    "What do you call a fake noodle? " + "An impasta!",
    "Why don't skeletons fight each other? " + "They don't have the guts!"]

  const EmptyChatReply := "Hello! How can I help you today?"

  const ChatGreeting := "Hello! I'm a mock OpenAI API. " + "How can I assist you today?"

  const StreamingReply :=
    "This response is being streamed " + "token by token from your mock OpenAI server. "
    + "Each word appears with a slight delay " + "to simulate real streaming behavior."

  function ChatDefaultReply(last: string): string
  {
    "This is a mock " + "response to your message: '" + last + "'. The chat completions API is working correctly!"
  }

  /** The built-in reply to a conversation; `draw` stands for `rand.Intn(4)`. */
  function GenerateChatResponse(messages: seq<Message>, draw: nat): string
  {
    if |messages| == 0 then EmptyChatReply
    else
      var last := messages[|messages| - 1].content;
      var lower := ToLower(last);
      if Contains(lower, "joke") then ChatJokes[draw % |ChatJokes|]
      else if Contains(lower, "weather") then WeatherReply
      else if Contains(lower, "hello") || Contains(lower, "hi") then ChatGreeting
      else if Contains(lower, "streaming") then StreamingReply
      else ChatDefaultReply(last)
  }

  /**
   * Which built-in reply comes back, in both directions, looking only at
   * the last message (whatever its role) and ignoring ASCII case: the empty
   * conversation gets its own greeting; otherwise a joke exactly when "joke"
   * occurs; the weather text exactly when "weather" does and "joke" does
   * not; the greeting for "hello" or "hi" without the earlier keywords; the
   * streaming text for "streaming" without any earlier keyword; otherwise
   * the default text, which quotes the last message verbatim.
   */
  lemma ChatResponseSelects(messages: seq<Message>, draw: nat)
    ensures |messages| == 0 ==> GenerateChatResponse(messages, draw) == EmptyChatReply
    ensures |messages| > 0 ==>
      var last := messages[|messages| - 1].content;
      var lower := ToLower(last);
      var r := GenerateChatResponse(messages, draw);
      && (r in ChatJokes <==> Contains(lower, "joke"))
      && (r == WeatherReply <==> !Contains(lower, "joke") && Contains(lower, "weather"))
      && (r == ChatGreeting <==>
            !Contains(lower, "joke") && !Contains(lower, "weather") && (Contains(lower, "hello") || Contains(lower, "hi")))
      && (r == StreamingReply <==>
            !Contains(lower, "joke") && !Contains(lower, "weather") && !Contains(lower, "hello") && !Contains(lower, "hi")
            && Contains(lower, "streaming"))
      && (r == ChatDefaultReply(last) <==>
            !Contains(lower, "joke") && !Contains(lower, "weather") && !Contains(lower, "hello") && !Contains(lower, "hi")
            && !Contains(lower, "streaming"))
      && (r == ChatDefaultReply(last) ==> Contains(r, last))
  {
    if |messages| > 0 {
      var last := messages[|messages| - 1].content;
      ChatRepliesDistinct(last);
      if GenerateChatResponse(messages, draw) == ChatDefaultReply(last) {
        ContainsInfix("This is a mock " + "response to your message: '", last,
          "'. The chat completions API is working correctly!");
      }
    }
  }

  /** The built-in replies differ from one another, whatever the quoted message. */
  lemma ChatRepliesDistinct(last: string)
    ensures ChatDefaultReply(last) !in ChatJokes && ChatDefaultReply(last) != WeatherReply
    ensures ChatDefaultReply(last) != ChatGreeting && ChatDefaultReply(last) != StreamingReply
    ensures StreamingReply !in ChatJokes && StreamingReply != WeatherReply && StreamingReply != ChatGreeting
    ensures ChatGreeting !in ChatJokes && ChatGreeting != WeatherReply
    ensures WeatherReply !in ChatJokes
  {
    var d := ChatDefaultReply(last);
    assert d[0] == 'T' && d[5] == 'i';
    assert ChatJokes[0][0] == 'W' && ChatJokes[1][0] == 'W' && ChatJokes[2][0] == 'W' && ChatJokes[3][0] == 'W';
    assert WeatherReply[0] == 'I' && ChatGreeting[0] == 'H' && StreamingReply[0] == 'T' && StreamingReply[5] == 'r';
  }

  // ---------------------------------------------------------------------------
  // Conversation summary
  // ---------------------------------------------------------------------------

  /** The content of the last message whose role is `user`, or "" when there is none. */
  function LastUser(messages: seq<Message>): string
    decreases |messages|
  {
    if messages == [] then ""
    else if messages[|messages| - 1].role == "user" then messages[|messages| - 1].content
    else LastUser(messages[..|messages| - 1])
  }

  /** The role of the last message, or "" for an empty conversation. */
  function LastRole(messages: seq<Message>): string
  {
    if messages == [] then "" else messages[|messages| - 1].role
  }

  /** Every non-empty content followed by a newline, in order. */
  function FullText(messages: seq<Message>): (t: string)
    ensures t == "" || t[|t| - 1] == '\n'
    decreases |messages|
  {
    if messages == [] then ""
    else
      var c := messages[|messages| - 1].content;
      FullText(messages[..|messages| - 1]) + (if c != "" then c + "\n" else "")
  }

  /** The message loop that fills the user text, the full text and the last role. */
  method BuildChatContext(messages: seq<Message>) returns (lastUser: string, full: string, lastRole: string)
    ensures lastUser == LastUser(messages)
    ensures full == FullText(messages)
    ensures lastRole == LastRole(messages)
  {
    lastUser, full, lastRole := "", "", "";
    for i := 0 to |messages|
      invariant lastUser == LastUser(messages[..i])
      invariant full == FullText(messages[..i])
      invariant lastRole == LastRole(messages[..i])
    {
      var m := messages[i];
      assert messages[..i + 1][..i] == messages[..i];
      if m.role == "user" {
        lastUser := m.content;
      }
      lastRole := m.role;
      if m.content != "" {
        full := full + m.content + "\n";
      }
    }
    assert messages[..|messages|] == messages;
  }

  /**
   * The user text is the content of some `user` message after which no
   * other `user` message follows; it is "" when there is no `user` message.
   */
  lemma {:induction false} LastUserIsLatest(messages: seq<Message>)
    ensures (forall i :: 0 <= i < |messages| ==> messages[i].role != "user") ==> LastUser(messages) == ""
    ensures (exists i :: 0 <= i < |messages| && messages[i].role == "user") ==>
      exists i :: 0 <= i < |messages| && messages[i].role == "user" && LastUser(messages) == messages[i].content
        && forall j :: i < j < |messages| ==> messages[j].role != "user"
    decreases |messages|
  {
    if messages != [] {
      var init := messages[..|messages| - 1];
      LastUserIsLatest(init);
      if messages[|messages| - 1].role != "user" {
        if exists i :: 0 <= i < |messages| && messages[i].role == "user" {
          var k :| 0 <= k < |messages| && messages[k].role == "user";
          assert init[k].role == "user";
          var i :| 0 <= i < |init| && init[i].role == "user" && LastUser(init) == init[i].content
            && forall j :: i < j < |init| ==> init[j].role != "user";
          assert messages[i] == init[i];
        }
        forall i | 0 <= i < |init|
          ensures init[i] == messages[i]
        {
        }
      }
    }
  }

  // ---------------------------------------------------------------------------
  // Token counting
  // ---------------------------------------------------------------------------

  /** The number of whitespace-separated words over all message contents. */
  function TokenCount(messages: seq<Message>): nat
    decreases |messages|
  {
    if messages == [] then 0
    else TokenCount(messages[..|messages| - 1]) + |Fields(messages[|messages| - 1].content)|
  }

  method CountTokens(messages: seq<Message>) returns (total: int)
    ensures total == TokenCount(messages)
  {
    total := 0;
    for i := 0 to |messages|
      invariant total == TokenCount(messages[..i])
    {
      assert messages[..i + 1][..i] == messages[..i];
      total := total + |Fields(messages[i].content)|;
    }
    assert messages[..|messages|] == messages;
  }

  /** Appending a line after text that is empty or ends a line adds exactly the line's words. */
  lemma AppendLineWords(f: string, c: string)
    requires f == "" || f[|f| - 1] == '\n'
    ensures |Fields(f + c + "\n")| == |Fields(f)| + |Fields(c)|
  {
    FieldsConcatSpace(f + c, '\n', "");
    assert f + c + "\n" == (f + c) + ['\n'] + "";
    assert Fields("") == [];
    if f == "" {
      assert f + c == c;
    } else {
      var g := f[..|f| - 1];
      assert f == g + ['\n'] + "";
      assert f + c == g + ['\n'] + c;
      FieldsConcatSpace(g, '\n', "");
      FieldsConcatSpace(g, '\n', c);
    }
  }

  /** The prompt tokens are exactly the words of the full text the rules are matched against. */
  lemma {:induction false} TokenCountIsFullTextWords(messages: seq<Message>)
    ensures TokenCount(messages) == |Fields(FullText(messages))|
    decreases |messages|
  {
    if messages != [] {
      var init := messages[..|messages| - 1];
      var c := messages[|messages| - 1].content;
      TokenCountIsFullTextWords(init);
      if c != "" {
        AppendLineWords(FullText(init), c);
        assert FullText(messages) == FullText(init) + c + "\n";
      } else {
        assert Fields(c) == [];
        assert FullText(messages) == FullText(init);
      }
    }
  }

  // ---------------------------------------------------------------------------
  // Configuration-driven reply
  // ---------------------------------------------------------------------------

  /** The pause between chunks before a rule is selected: the global chunk delay, else 150 ms. */
  function ChatDelayMs(cfg: Option<BotConfig>): int
  {
    if cfg.Some? && cfg.value.streaming.chunkDelayMs.Some? then cfg.value.streaming.chunkDelayMs.value else 150
  }

  /** What the rules see of a conversation. */
  function ChatQuery(req: ChatCompletionRequest): Query
  {
    Query("chat", req.model, LastRole(req.messages), LastUser(req.messages), FullText(req.messages))
  }

  function ChatContext(cfg: Option<BotConfig>, req: ChatCompletionRequest, env: Env): map<string, string>
  {
    TemplateContext(cfg, req.model, LastUser(req.messages), FullText(req.messages), env.timestamp)
  }

  /** The text of a matched rule, or nothing when both its picked text and its tool texts are empty. */
  function RuleReply(cfg: Option<BotConfig>, respond: RespondWrapper, ctx: map<string, string>, env: Env): Option<string>
  {
    var agg := AggregateLines(ToolTexts(UsableTools(cfg, respond.useTools), ctx, env.order));
    var txt := PickedText(respond, env.ruleDraw);
    if txt != "" then
      var rendered := Render(txt, ctx, env.order);
      Some(if agg != "" then agg + "\n" + rendered else rendered)
    else if agg != "" then Some(agg)
    else None
  }

  /** The configured fallback when it has a text and the pick is non-empty, else the built-in reply. */
  function FallbackReply(cfg: Option<BotConfig>, req: ChatCompletionRequest, env: Env): string
  {
    if cfg.Some? && (cfg.value.fallback.text != "" || cfg.value.fallback.message.text != "")
      && PickedText(cfg.value.fallback, env.fallbackDraw) != ""
    then Render(PickedText(cfg.value.fallback, env.fallbackDraw), ChatContext(cfg, req, env), env.order)
    else GenerateChatResponse(req.messages, env.jokeDraw)
  }

  /** The resolver's answer for a conversation. */
  function ChatReply(cfg: Option<BotConfig>, req: ChatCompletionRequest, env: Env): ChatResolution
  {
    var m := Evaluate(cfg, ChatQuery(req), env);
    var delay := if m.Some? then m.value.delayMs else ChatDelayMs(cfg);
    if m.Some? && m.value.rule.respond.error.Some? then ChatResolution("", m.value.rule.respond.error, delay)
    else
      var ruled := if m.Some? then RuleReply(cfg, m.value.rule.respond, ChatContext(cfg, req, env), env) else None;
      if ruled.Some? then ChatResolution(ruled.value, None, delay)
      else ChatResolution(FallbackReply(cfg, req, env), None, delay)
  }

  /**
   * A matched rule's text: the non-empty rendered tool texts, then the
   * rendered picked text, one per line. Without a picked text the tool texts
   * alone, and nothing at all (so the fallback answers) when those are all
   * empty too.
   */
  lemma RuleReplyLines(cfg: Option<BotConfig>, respond: RespondWrapper, ctx: map<string, string>, env: Env)
    ensures var texts := NonEmptyTexts(ToolTexts(UsableTools(cfg, respond.useTools), ctx, env.order));
      var txt := PickedText(respond, env.ruleDraw);
      var r := RuleReply(cfg, respond, ctx, env);
      && (txt != "" ==> r == Some(Join(texts + [Render(txt, ctx, env.order)], "\n")))
      && (txt == "" ==> (r.None? <==> texts == []))
      && (txt == "" && r.Some? ==> r.value == Join(texts, "\n"))
  {
    var ts := ToolTexts(UsableTools(cfg, respond.useTools), ctx, env.order);
    var texts := NonEmptyTexts(ts);
    var txt := PickedText(respond, env.ruleDraw);
    AggregateLinesIsJoin(ts);
    if txt != "" {
      var rendered := Render(txt, ctx, env.order);
      if texts != [] {
        JoinSnoc(texts, rendered, "\n");
      } else {
        assert texts + [rendered] == [rendered];
      }
    }
  }

  /**
   * The resolver's outcomes. The delay is the selected rule's, else the
   * global chunk delay, else 150 ms. An error comes back, with an empty
   * text, exactly when the selected rule injects one. A selected rule
   * without an error answers with its text when it has one; otherwise, and
   * when no rule is selected, the configured fallback or the built-in reply
   * answers. Without a configuration the built-in reply answers after 150 ms.
   */
  lemma ChatReplyCases(cfg: Option<BotConfig>, req: ChatCompletionRequest, env: Env)
    ensures var m := Evaluate(cfg, ChatQuery(req), env);
      var r := ChatReply(cfg, req, env);
      && r.delayMs == (if m.Some? then m.value.delayMs else ChatDelayMs(cfg))
      && (r.error.Some? <==> m.Some? && m.value.rule.respond.error.Some?)
      && (r.error.Some? ==> r.error == m.value.rule.respond.error && r.text == "")
      && (m.Some? && m.value.rule.respond.error.None?
            && RuleReply(cfg, m.value.rule.respond, ChatContext(cfg, req, env), env).Some? ==>
            r.text == RuleReply(cfg, m.value.rule.respond, ChatContext(cfg, req, env), env).value)
      && ((m.None? || (m.value.rule.respond.error.None?
                       && RuleReply(cfg, m.value.rule.respond, ChatContext(cfg, req, env), env).None?)) ==>
            r.text == FallbackReply(cfg, req, env) && r.error.None?)
      && (cfg.None? ==> r == ChatResolution(GenerateChatResponse(req.messages, env.jokeDraw), None, 150))
  {
  }

  /** The `use_tools` loop: the rendered tool texts, non-empty ones on their own lines. */
  method AggregateToolTexts(cfg: Option<BotConfig>, names: seq<string>, ctx: map<string, string>, env: Env)
    returns (agg: string)
    requires IsEnumeration(env.order, ctx.Keys)
    ensures agg == AggregateLines(ToolTexts(UsableTools(cfg, names), ctx, env.order))
  {
    agg := "";
    ghost var defs: seq<ToolDef> := [];
    for i := 0 to |names|
      invariant defs == UsableTools(cfg, names[..i])
      invariant agg == AggregateLines(ToolTexts(defs, ctx, env.order))
    {
      UsableToolsSnoc(cfg, names, i);
      var name := names[i];
      if !IsToolEnabled(cfg, name) {
        continue;
      }
      var def := GetToolDef(cfg, name);
      if def.Some? {
        agg := AddToolText(agg, defs, def.value, ctx, env);
        defs := defs + [def.value];
      }
    }
    assert names[..|names|] == names;
  }

  /** One usable tool: its rendered message text, if it has one, on a new line. */
  method AddToolText(agg: string, ghost defs: seq<ToolDef>, d: ToolDef, ctx: map<string, string>, env: Env)
    returns (agg': string)
    requires IsEnumeration(env.order, ctx.Keys)
    requires agg == AggregateLines(ToolTexts(defs, ctx, env.order))
    ensures agg' == AggregateLines(ToolTexts(defs + [d], ctx, env.order))
  {
    assert (defs + [d])[..|defs|] == defs;
    agg' := agg;
    if d.message.Some? {
      var t := RenderTemplate(d.message.value.text, ctx, env.order);
      AggregateLinesSnoc(ToolTexts(defs, ctx, env.order), t);
      if t != "" {
        if agg' != "" {
          agg' := agg' + "\n";
        }
        agg' := agg' + t;
      }
    }
  }

  /** The reply text of a selected rule without an error, or nothing. */
  method ResolveRuleText(cfg: Option<BotConfig>, respond: RespondWrapper, ctx: map<string, string>, env: Env)
    returns (text: Option<string>)
    requires IsEnumeration(env.order, ctx.Keys)
    ensures text == RuleReply(cfg, respond, ctx, env)
  {
    var agg := AggregateToolTexts(cfg, respond.useTools, ctx, env);
    var txt := PickText(respond, env.ruleDraw);
    if txt != "" {
      var rendered := RenderTemplate(txt, ctx, env.order);
      if agg != "" {
        rendered := agg + "\n" + rendered;
      }
      return Some(rendered);
    }
    if agg != "" {
      return Some(agg);
    }
    return None;
  }

  /** The fallback step of the resolver. */
  method ResolveFallback(cfg: Option<BotConfig>, req: ChatCompletionRequest, lastUser: string, full: string, env: Env)
    returns (text: string)
    requires IsEnumeration(env.order, ContextKeys(cfg))
    requires lastUser == LastUser(req.messages) && full == FullText(req.messages)
    ensures text == FallbackReply(cfg, req, env)
  {
    if cfg.Some? && (cfg.value.fallback.text != "" || cfg.value.fallback.message.text != "") {
      var ctx := BuildTemplateContext(cfg, req.model, lastUser, full, env.timestamp);
      TemplateContextKeys(cfg, req.model, lastUser, full, env.timestamp);
      var txt := PickText(cfg.value.fallback, env.fallbackDraw);
      if txt != "" {
        text := RenderTemplate(txt, ctx, env.order);
        return;
      }
    }
    text := GenerateChatResponse(req.messages, env.jokeDraw);
  }

  /** The resolver: rules on the conversation summary, then the fallback, then the built-in reply. */
  method ResolveChatResponse(cfg: Option<BotConfig>, req: ChatCompletionRequest, env: Env)
    returns (text: string, error: Option<ErrorOut>, delayMs: int)
    requires IsEnumeration(env.order, ContextKeys(cfg))
    ensures ChatResolution(text, error, delayMs) == ChatReply(cfg, req, env)
  {
    var lastUser, full, lastRole := BuildChatContext(req.messages);
    delayMs := 150;
    if cfg.Some? && cfg.value.streaming.chunkDelayMs.Some? {
      delayMs := cfg.value.streaming.chunkDelayMs.value;
    }
    var m := EvaluateRules(cfg, Query("chat", req.model, lastRole, lastUser, full), env);
    if m.Some? {
      delayMs := m.value.delayMs;
      var respond := m.value.rule.respond;
      if respond.error.Some? {
        return "", respond.error, delayMs;
      }
      var ctx := BuildTemplateContext(cfg, req.model, lastUser, full, env.timestamp);
      TemplateContextKeys(cfg, req.model, lastUser, full, env.timestamp);
      var ruled := ResolveRuleText(cfg, respond, ctx, env);
      if ruled.Some? {
        return ruled.value, None, delayMs;
      }
    }
    text := ResolveFallback(cfg, req, lastUser, full, env);
    error := None;
  }

  // ---------------------------------------------------------------------------
  // Completion and stream
  // ---------------------------------------------------------------------------

  /** `chatcmpl-<unix seconds>`: every completion created in the same second shares it. */
  function ChatId(env: Env): string
  {
    "chatcmpl-" + IntToString(env.now)
  }

  /** The completion object for a reply text. */
  function Completion(req: ChatCompletionRequest, text: string, env: Env): ChatCompletionResponse
  {
    var prompt := TokenCount(req.messages);
    var completion := |Fields(text)|;
    ChatCompletionResponse(
      ChatId(env), "chat.completion", env.now, req.model,
      [Choice(0, Message("assistant", text), "stop")],
      Usage(prompt, completion, prompt + completion))
  }

  /**
   * A completion carries one assistant choice holding the reply; its prompt
   * tokens are the words of the conversation's full text, its completion
   * tokens the words of the reply, and the total their sum.
   */
  lemma CompletionUsage(req: ChatCompletionRequest, text: string, env: Env)
    ensures var c := Completion(req, text, env);
      && |c.choices| == 1 && c.choices[0].message == Message("assistant", text)
      && c.choices[0].finishReason == "stop"
      && c.usage.promptTokens == |Fields(FullText(req.messages))|
      && c.usage.completionTokens == |Fields(text)|
      && c.usage.totalTokens == c.usage.promptTokens + c.usage.completionTokens
  {
    TokenCountIsFullTextWords(req.messages);
  }

  function Chunk(req: ChatCompletionRequest, env: Env, delta: Delta, finishReason: string): ChatFrame
  {
    ChunkFrame(StreamChunk(ChatId(env), "chat.completion.chunk", env.now, req.model, 0, delta, finishReason))
  }

  /**
   * The stream for a reply's words: it opens with the assistant role, sends
   * one chunk per word (each but the last followed by one space), closes
   * with a `stop` chunk and `[DONE]`; every chunk carries the completion
   * identifier and the model.
   */
  function ChatFrames(req: ChatCompletionRequest, words: seq<string>, env: Env): (frames: seq<ChatFrame>)
    ensures |frames| == |words| + 3
    ensures frames[0] == Chunk(req, env, Delta("assistant", ""), "")
    ensures forall i :: 0 <= i < |words| - 1 ==> frames[i + 1] == Chunk(req, env, Delta("", words[i] + " "), "")
    ensures |words| > 0 ==> frames[|words|] == Chunk(req, env, Delta("", words[|words| - 1]), "")
    ensures frames[|frames| - 2] == Chunk(req, env, Delta("", ""), "stop")
    ensures frames[|frames| - 1] == DoneFrame
    ensures forall i :: 0 <= i < |frames| - 1 ==>
      frames[i].ChunkFrame? && frames[i].chunk.id == ChatId(env) && frames[i].chunk.model == req.model
  {
    [Chunk(req, env, Delta("assistant", ""), "")]
    + seq(|words|, i requires 0 <= i < |words| => Chunk(req, env, Delta("", WordDeltas(words)[i]), ""))
    + [Chunk(req, env, Delta("", ""), "stop"), DoneFrame]
  }

  /** The content each frame carries ("" for the role, stop and `[DONE]` frames). */
  function FrameContents(frames: seq<ChatFrame>): (cs: seq<string>)
    ensures |cs| == |frames|
  {
    seq(|frames|, i requires 0 <= i < |frames| => if frames[i].ChunkFrame? then frames[i].chunk.delta.content else "")
  }

  lemma {:induction false} ConcatAppend(a: seq<string>, b: seq<string>)
    ensures Concat(a + b) == Concat(a) + Concat(b)
    decreases |a|
  {
    if a == [] {
      assert a + b == b;
    } else {
      assert (a + b)[0] == a[0];
      assert (a + b)[1..] == a[1..] + b;
      ConcatAppend(a[1..], b);
    }
  }

  /** The contents of the frames are the word deltas, between empty contents. */
  lemma FrameContentsAreDeltas(req: ChatCompletionRequest, words: seq<string>, env: Env)
    ensures Concat(FrameContents(ChatFrames(req, words, env))) == Concat(WordDeltas(words))
  {
    var ds := WordDeltas(words);
    FrameContentsOfStream(req, words, env);
    ConcatAppend([""] + ds, ["", ""]);
    ConcatAppend([""], ds);
    assert Concat(["", ""]) == "";
    assert Concat([""]) == "";
  }

  /** The frames carry an empty content, the word deltas, then two empty contents. */
  lemma FrameContentsOfStream(req: ChatCompletionRequest, words: seq<string>, env: Env)
    ensures FrameContents(ChatFrames(req, words, env)) == [""] + WordDeltas(words) + ["", ""]
  {
    var frames := ChatFrames(req, words, env);
    var cs := FrameContents(frames);
    var ds := WordDeltas(words);
    var expected := [""] + ds + ["", ""];
    forall i | 0 <= i < |cs|
      ensures cs[i] == expected[i]
    {
      if 1 <= i <= |words| {
        assert frames[i] == Chunk(req, env, Delta("", ds[i - 1]), "");
      }
    }
  }

  /**
   * The streamed contents concatenate to the reply's words joined by single
   * spaces, so re-splitting them gives back exactly the reply's words.
   */
  lemma ChatStreamRoundTrip(req: ChatCompletionRequest, text: string, env: Env)
    ensures var frames := ChatFrames(req, Fields(text), env);
      && Concat(FrameContents(frames)) == Join(Fields(text), " ")
      && Fields(Concat(FrameContents(frames))) == Fields(text)
  {
    FrameContentsAreDeltas(req, Fields(text), env);
    ConcatWordDeltas(Fields(text));
    StreamedWordsRoundTrip(text);
  }

  /** The payload of a frame: the chunk's encoding, or the `[DONE]` sentinel. */
  function FramePayload(frame: ChatFrame, encode: StreamChunk -> string): string
  {
    match frame
    case ChunkFrame(c) => encode(c)
    case DoneFrame => "[DONE]"
  }

  /** The bytes written for a chunk stream: one `data:` frame per chunk, encoded with `encode`, then `[DONE]`. */
  function ChatWire(frames: seq<ChatFrame>, encode: StreamChunk -> string): string
  {
    EventStream(seq(|frames|, i requires 0 <= i < |frames| => FramePayload(frames[i], encode)))
  }

  /**
   * A client reading the stream of a reply gets the role chunk, one chunk
   * per word, the stop chunk and finally the `[DONE]` sentinel, one event
   * each, provided the encoder writes no line breaks (as JSON encoding does
   * not).
   */
  lemma ChatWireReadsBack(req: ChatCompletionRequest, words: seq<string>, env: Env, encode: StreamChunk -> string)
    requires forall c :: NoLineBreak(encode(c))
    ensures var frames := ChatFrames(req, words, env);
      var read := ReadEvents(ChatWire(frames, encode));
      && |read| == |words| + 3
      && (forall i :: 0 <= i < |words| + 2 ==> frames[i].ChunkFrame? && read[i] == encode(frames[i].chunk))
      && read[|words| + 2] == "[DONE]"
  {
    var frames := ChatFrames(req, words, env);
    var payloads := seq(|frames|, i requires 0 <= i < |frames| => FramePayload(frames[i], encode));
    forall i | 0 <= i < |payloads|
      ensures NoLineBreak(payloads[i])
    {
      if frames[i].DoneFrame? {
        assert payloads[i] == "[DONE]";
      }
    }
    ReadEventsOfStream(payloads);
  }

  /** The chunk loop of the streaming handler. */
  method StreamWords(req: ChatCompletionRequest, words: seq<string>, env: Env) returns (frames: seq<ChatFrame>)
    ensures frames == ChatFrames(req, words, env)
  {
    frames := [Chunk(req, env, Delta("assistant", ""), "")];
    for i := 0 to |words|
      invariant |frames| == i + 1
      invariant frames[0] == Chunk(req, env, Delta("assistant", ""), "")
      invariant forall j :: 0 <= j < i ==> frames[j + 1] == Chunk(req, env, Delta("", WordDeltas(words)[j]), "")
    {
      var content := words[i];
      if i < |words| - 1 {
        content := content + " ";
      }
      frames := frames + [Chunk(req, env, Delta("", content), "")];
    }
    frames := frames + [Chunk(req, env, Delta("", ""), "stop"), DoneFrame];
  }

  /**
   * POST /v1/chat/completions. A body that does not decode is a 400; a
   * streaming request gets the chunk stream of the resolved text (an
   * injected error is not reported there: its empty text streams no words)
   * with the resolved pause; an injected error is answered with its status;
   * otherwise the completion for the resolved text.
   */
  method HandleChatCompletions(body: Option<ChatCompletionRequest>, cfg: Option<BotConfig>, env: Env)
    returns (outcome: ChatOutcome)
    requires IsEnumeration(env.order, ContextKeys(cfg))
    ensures body.None? ==> outcome == BadRequest(HttpError(400, "Invalid JSON"))
    ensures body.Some? ==>
      var req := body.value;
      var r := ChatReply(cfg, req, env);
      && (req.stream == Some(true) ==> outcome == Streamed(ChatFrames(req, Fields(r.text), env), r.delayMs))
      && (req.stream != Some(true) && r.error.Some? ==> outcome == RuleError(r.error.value))
      && (req.stream != Some(true) && r.error.None? ==> outcome == Completed(Completion(req, r.text, env)))
  {
    if body.None? {
      return BadRequest(HttpError(400, "Invalid JSON"));
    }
    var req := body.value;
    var text, error, delayMs := ResolveChatResponse(cfg, req, env);
    assert text == ChatReply(cfg, req, env).text && error == ChatReply(cfg, req, env).error;
    if req.stream == Some(true) {
      var frames := StreamWords(req, Fields(text), env);
      return Streamed(frames, delayMs);
    }
    if error.Some? {
      return RuleError(error.value);
    }
    var response := BuildCompletion(req, text, env);
    return Completed(response);
  }

  /** The non-streaming answer: one assistant choice and the token usage. */
  method BuildCompletion(req: ChatCompletionRequest, text: string, env: Env) returns (response: ChatCompletionResponse)
    ensures response == Completion(req, text, env)
  {
    var prompt := CountTokens(req.messages);
    var completion := |Fields(text)|;
    response := ChatCompletionResponse(
      ChatId(env), "chat.completion", env.now, req.model,
      [Choice(0, Message("assistant", text), "stop")],
      Usage(prompt, completion, prompt + completion));
  }

  // ---------------------------------------------------------------------------
  // Models
  // ---------------------------------------------------------------------------

  const ModelsCreated := 1677610602

  /**
   * Every listed model is a `model` created at 1677610602; the configured
   * models are listed one for one, in order, with their owners; without
   * any, exactly gpt-4o, gpt-4o-mini and gpt-3.5-turbo, owned by openai.
   */
  function ModelList(cfg: Option<BotConfig>): (data: seq<ModelEntry>)
    ensures forall e :: e in data ==> e.objectType == "model" && e.created == ModelsCreated
    ensures cfg.Some? && |cfg.value.models| > 0 ==>
      && |data| == |cfg.value.models|
      && forall i :: 0 <= i < |data| ==> data[i].id == cfg.value.models[i].id && data[i].ownedBy == cfg.value.models[i].ownedBy
    ensures cfg.None? || |cfg.value.models| == 0 ==>
      && |data| == 3
      && data[0].id == "gpt-4o" && data[1].id == "gpt-4o-mini" && data[2].id == "gpt-3.5-turbo"
      && forall e :: e in data ==> e.ownedBy == "openai"
  {
    if cfg.Some? && |cfg.value.models| > 0 then
      var ms := cfg.value.models;
      seq(|ms|, i requires 0 <= i < |ms| => ModelEntry(ms[i].id, "model", ModelsCreated, ms[i].ownedBy))
    else
      [ModelEntry("gpt-4o", "model", ModelsCreated, "openai"),
       ModelEntry("gpt-4o-mini", "model", ModelsCreated, "openai"),
       ModelEntry("gpt-3.5-turbo", "model", ModelsCreated, "openai")]
  }

  /** GET /v1/models. */
  method HandleModels(cfg: Option<BotConfig>) returns (resp: ModelsResponse)
    ensures resp == ModelsResponse("list", ModelList(cfg))
  {
    var data: seq<ModelEntry> := [];
    if cfg.Some? && |cfg.value.models| > 0 {
      var ms := cfg.value.models;
      for i := 0 to |ms|
        invariant |data| == i
        invariant forall j :: 0 <= j < i ==> data[j] == ModelEntry(ms[j].id, "model", ModelsCreated, ms[j].ownedBy)
      {
        data := data + [ModelEntry(ms[i].id, "model", ModelsCreated, ms[i].ownedBy)];
      }
    } else {
      data := [ModelEntry("gpt-4o", "model", ModelsCreated, "openai"),
               ModelEntry("gpt-4o-mini", "model", ModelsCreated, "openai"),
               ModelEntry("gpt-3.5-turbo", "model", ModelsCreated, "openai")];
    }
    resp := ModelsResponse("list", data);
  }
}
