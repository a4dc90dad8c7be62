/**
 * The rule and configuration engine of the mock server: the configuration
 * records, the tool registry, weighted text choice, `{{var}}` templates and
 * rule evaluation.
 *
 * Everything the Go code draws from the outside world is a parameter here,
 * collected in `Env`: the regular-expression engine, the random draws, the
 * RFC 3339 timestamp, the clock and the order in which a Go map is walked.
 */
module Config {
  import opened Wrappers
  import opened GoStrings

  // ---------------------------------------------------------------------------
  // Configuration records
  // ---------------------------------------------------------------------------

  datatype ServerConfig = ServerConfig(port: string, cors: string)

  /** Go's `*bool` and `*int` fields become options: `None` is nil. */
  datatype StreamingConfig = StreamingConfig(enabled: Option<bool>, chunkDelayMs: Option<int>)

  datatype ModelConfig = ModelConfig(id: string, ownedBy: string)

  /** The `match` block of a rule (`match` is a Dafny keyword, so rules call it `condition`). */
  datatype Match = Match(endpoint: string, model: seq<string>, role: string, contains: seq<string>, regex: string)

  datatype WeightedText = WeightedText(weight: int, text: string)

  datatype AnnotationOut = AnnotationOut(kind: string, title: string, url: string)

  datatype MessageOut = MessageOut(text: string, annotations: seq<AnnotationOut>)

  datatype ToolOut = ToolOut(kind: string, status: string)

  datatype ErrorOut = ErrorOut(status: int, code: string, message: string)

  datatype RespondWrapper = RespondWrapper(
    text: string,
    choose: seq<WeightedText>,
    tools: seq<ToolOut>,
    useTools: seq<string>,
    message: MessageOut,
    error: Option<ErrorOut>)

  /** A rule; `continues` is the YAML `continue` flag. */
  datatype Rule = Rule(
    id: string,
    condition: Match,
    respond: RespondWrapper,
    streamOverride: Option<StreamingConfig>,
    continues: bool,
    probability: Option<real>)

  datatype ToolDef = ToolDef(callType: string, status: string, message: Option<MessageOut>)

  datatype ToolsConfig = ToolsConfig(enabled: seq<string>, registry: map<string, ToolDef>)

  datatype BotConfig = BotConfig(
    version: int,
    server: ServerConfig,
    models: seq<ModelConfig>,
    streaming: StreamingConfig,
    tools: ToolsConfig,
    variables: map<string, string>,
    rules: seq<Rule>,
    fallback: RespondWrapper)

  const EmptyMessage := MessageOut("", [])
  const EmptyRespond := RespondWrapper("", [], [], [], EmptyMessage, None)
  const NoMatch := Match("", [], "", [], "")

  // ---------------------------------------------------------------------------
  // The outside world
  // ---------------------------------------------------------------------------

  /** An abstract regular-expression engine: whether a pattern compiles, and whether it matches a text. */
  datatype RegexEngine = RegexEngine(compiles: string -> bool, matches: (string, string) -> bool)

  /**
   * One request's view of the outside world.
   * - `coin(i)` is the `rand.Float64()` value drawn for the probability gate of rule `i`;
   * - `ruleDraw`, `fallbackDraw` and `jokeDraw` are the `rand.Intn` draws (reduced modulo the bound);
   * - `timestamp` is the RFC 3339 rendering of the clock, `now` its Unix seconds;
   * - `order` is the order in which template-context keys are visited;
   * - `idDraw(k)` is the `rand.Intn(10000)` draw for the k-th identifier minted by the request.
   */
  datatype Env = Env(
    regex: RegexEngine,
    coin: nat -> real,
    ruleDraw: nat,
    fallbackDraw: nat,
    jokeDraw: nat,
    timestamp: string,
    order: seq<string>,
    now: int,
    idDraw: nat -> nat)

  // ---------------------------------------------------------------------------
  // YAML: a rule's `model` accepts one string or a list of strings
  // ---------------------------------------------------------------------------

  /**
   * The kinds of YAML node the decoder can hand over. For a scalar or a
   * sequence, the payload is what decoding it as a string (or a list of
   * strings) produced, `None` when that decoding failed.
   */
  datatype YamlNode =
    | ScalarNode(asString: Option<string>)
    | SequenceNode(asStrings: Option<seq<string>>)
    | DocumentNode
    | MappingNode
    | AliasNode
    | OtherNode

  datatype YamlError = DecodeFailed | InvalidType

  /** A scalar becomes a one-element list, a sequence is taken as is, any other node is refused. */
  function UnmarshalStringOrSlice(node: YamlNode): (r: Result<seq<string>, YamlError>)
    ensures r.Ok? <==> (node.ScalarNode? && node.asString.Some?) || (node.SequenceNode? && node.asStrings.Some?)
    ensures r.Ok? && node.ScalarNode? ==> r.value == [node.asString.value]
    ensures r.Ok? && node.SequenceNode? ==> r.value == node.asStrings.value
    ensures r.Err? ==> (r.error == InvalidType <==> !node.ScalarNode? && !node.SequenceNode?)
  {
    match node
    case ScalarNode(s) => if s.Some? then Ok([s.value]) else Err(DecodeFailed)
    case SequenceNode(a) => if a.Some? then Ok(a.value) else Err(DecodeFailed)
    case _ => Err(InvalidType)
  }

  // ---------------------------------------------------------------------------
  // Small lookups
  // ---------------------------------------------------------------------------

  /** Linear membership test. */
  function ContainsString(list: seq<string>, s: string): (r: bool)
    ensures r <==> s in list
  {
    if list == [] then false else list[0] == s || ContainsString(list[1..], s)
  }

  /** An empty candidate list admits every model. */
  function IsModelMatch(model: string, cand: seq<string>): (r: bool)
    ensures r <==> |cand| == 0 || model in cand
  {
    |cand| == 0 || ContainsString(cand, model)
  }

  /** Delay precedence: the override's delay, else the global delay, else the default. */
  function GetStreamingDelayMs(global: StreamingConfig, override: Option<StreamingConfig>, defaultMs: int): (ms: int)
    ensures override.Some? && override.value.chunkDelayMs.Some? ==> ms == override.value.chunkDelayMs.value
    ensures (override.None? || override.value.chunkDelayMs.None?) && global.chunkDelayMs.Some?
      ==> ms == global.chunkDelayMs.value
    ensures (override.None? || override.value.chunkDelayMs.None?) && global.chunkDelayMs.None? ==> ms == defaultMs
  {
    if override.Some? && override.value.chunkDelayMs.Some? then override.value.chunkDelayMs.value
    else if global.chunkDelayMs.Some? then global.chunkDelayMs.value
    else defaultMs
  }

  /** With no configuration nothing is enabled; an empty `enabled` list enables every name. */
  function IsToolEnabled(cfg: Option<BotConfig>, name: string): (r: bool)
    ensures r <==> cfg.Some? && (|cfg.value.tools.enabled| == 0 || name in cfg.value.tools.enabled)
  {
    if cfg.None? then false
    else if |cfg.value.tools.enabled| == 0 then true
    else ContainsString(cfg.value.tools.enabled, name)
  }

  /** The registry entry for `name`; not found when there is no configuration. */
  function GetToolDef(cfg: Option<BotConfig>, name: string): (r: Option<ToolDef>)
    ensures r.Some? <==> cfg.Some? && name in cfg.value.tools.registry
    ensures r.Some? ==> r.value == cfg.value.tools.registry[name]
  {
    if cfg.Some? && name in cfg.value.tools.registry then Some(cfg.value.tools.registry[name]) else None
  }

  // ---------------------------------------------------------------------------
  // The built-in tools
  // ---------------------------------------------------------------------------

  const WebSearchMessage := MessageOut(
    "Based on my web search, here are the latest developments: Mock search results show that AI technology continues to advance rapidly.",
    [ AnnotationOut("url_citation", "AI Technology Advances in 2025", "https://example.com/ai-advances-2025"),
      AnnotationOut("url_citation", "Language Model Improvements", "https://example.com/language-models") ])

  const FileSearchMessage := MessageOut(
    "Based on the uploaded documents, I found relevant information about your query.",
    [ AnnotationOut("file_citation", "Document Section 3.2", ""),
      AnnotationOut("file_citation", "Appendix A - Examples", "") ])

  const DefaultWebSearch := ToolDef("web_search_call", "completed", Some(WebSearchMessage))
  const DefaultFileSearch := ToolDef("file_search_call", "completed", Some(FileSearchMessage))

  predicate Distinct(xs: seq<string>)
  {
    forall i, j :: 0 <= i < j < |xs| ==> xs[i] != xs[j]
  }

  /**
   * Adds the built-in `web_search` and `file_search` tools unless the
   * registry already names them, and enables every registered tool when the
   * `enabled` list is empty. The registry is a Go map, so the order of the
   * enabled names it produces is arbitrary.
   */
  method EnsureDefaultTools(cfg: BotConfig) returns (out: BotConfig)
    ensures out == cfg.(tools := out.tools)
    ensures out.tools.registry.Keys == cfg.tools.registry.Keys + {"web_search", "file_search"}
    ensures forall n :: n in cfg.tools.registry ==> out.tools.registry[n] == cfg.tools.registry[n]
    ensures "web_search" !in cfg.tools.registry ==> out.tools.registry["web_search"] == DefaultWebSearch
    ensures "file_search" !in cfg.tools.registry ==> out.tools.registry["file_search"] == DefaultFileSearch
    ensures |cfg.tools.enabled| > 0 ==> out.tools.enabled == cfg.tools.enabled
    ensures |cfg.tools.enabled| == 0 ==>
      Distinct(out.tools.enabled) && forall n :: n in out.tools.enabled <==> n in out.tools.registry
  {
    var registry := cfg.tools.registry;
    if "web_search" !in registry {
      registry := registry["web_search" := DefaultWebSearch];
    }
    if "file_search" !in registry {
      registry := registry["file_search" := DefaultFileSearch];
    }
    var enabled := cfg.tools.enabled;
    if |enabled| == 0 {
      enabled := EnabledNames(registry);
    }
    out := cfg.(tools := ToolsConfig(enabled, registry));
  }

  /** Every name of a registry once, in an arbitrary order. */
  method EnabledNames(registry: map<string, ToolDef>) returns (enabled: seq<string>)
    ensures Distinct(enabled)
    ensures forall n :: n in enabled <==> n in registry
  {
    enabled := [];
    var pending := registry.Keys;
    while pending != {}
      invariant pending <= registry.Keys
      invariant Distinct(enabled)
      invariant forall n :: n in enabled <==> n in registry && n !in pending
      decreases |pending|
    {
      var n :| n in pending;
      enabled := enabled + [n];
      pending := pending - {n};
    }
  }

  // ---------------------------------------------------------------------------
  // Weighted choice
  // ---------------------------------------------------------------------------

  /** In the scan a non-positive weight counts as 1. */
  function AdjustedWeight(w: int): int
  {
    if w <= 0 then 1 else w
  }

  /** Sum of the raw weights of the first `k` choices. */
  function RawSum(cs: seq<WeightedText>, k: nat): int
    requires k <= |cs|
  {
    if k == 0 then 0 else RawSum(cs, k - 1) + cs[k - 1].weight
  }

  /** Sum of the adjusted weights of the first `k` choices: where choice `k` starts in the scan. */
  function AdjustedPrefix(cs: seq<WeightedText>, k: nat): int
    requires k <= |cs|
  {
    if k == 0 then 0 else AdjustedPrefix(cs, k - 1) + AdjustedWeight(cs[k - 1].weight)
  }

  /** The bound passed to `rand.Intn`: the raw total, or the number of choices when that is not positive. */
  function DrawBound(cs: seq<WeightedText>): int
  {
    if RawSum(cs, |cs|) <= 0 then |cs| else RawSum(cs, |cs|)
  }

  /** The scan from choice `k` on: the first choice whose cumulative weight exceeds `r`, choice 0 if none. */
  function SelectChoice(cs: seq<WeightedText>, r: int, k: nat): (j: nat)
    requires k <= |cs|
    ensures |cs| > 0 ==> j < |cs|
    decreases |cs| - k
  {
    if k == |cs| then 0
    else if r < AdjustedPrefix(cs, k + 1) then k
    else SelectChoice(cs, r, k + 1)
  }

  /** The text `PickText` returns when `rand.Intn(DrawBound)` yields `draw % DrawBound`. */
  function PickedText(resp: RespondWrapper, draw: nat): string
  {
    if |resp.choose| > 0 then
      var cs := resp.choose;
      cs[SelectChoice(cs, draw % DrawBound(cs), 0)].text
    else if resp.text != "" then resp.text
    else resp.message.text
  }

  method PickText(resp: RespondWrapper, draw: nat) returns (text: string)
    ensures text == PickedText(resp, draw)
  {
    var cs := resp.choose;
    if |cs| > 0 {
      var total := 0;
      for i := 0 to |cs|
        invariant total == RawSum(cs, i)
      {
        total := total + cs[i].weight;
      }
      if total <= 0 {
        total := |cs|;
      }
      var r := draw % total;
      var sum := 0;
      for i := 0 to |cs|
        invariant sum == AdjustedPrefix(cs, i)
        invariant SelectChoice(cs, r, 0) == SelectChoice(cs, r, i)
      {
        var w := cs[i].weight;
        if w <= 0 {
          w := 1;
        }
        if r < sum + w {
          return cs[i].text;
        }
        sum := sum + w;
      }
      return cs[0].text;
    }
    if resp.text != "" {
      return resp.text;
    }
    if resp.message.text != "" {
      return resp.message.text;
    }
    return "";
  }

  lemma {:induction false} AdjustedPrefixBounds(cs: seq<WeightedText>, k: nat)
    requires k <= |cs|
    ensures AdjustedPrefix(cs, k) >= RawSum(cs, k)
    ensures AdjustedPrefix(cs, k) >= k
  {
    if k > 0 {
      AdjustedPrefixBounds(cs, k - 1);
    }
  }

  lemma {:induction false} AdjustedPrefixMonotone(cs: seq<WeightedText>, i: nat, j: nat)
    requires i <= j <= |cs|
    ensures AdjustedPrefix(cs, i) < AdjustedPrefix(cs, j) || i == j
    decreases j
  {
    if i < j {
      AdjustedPrefixMonotone(cs, i, j - 1);
    }
  }

  /** Scanning from `k` finds the choice whose cumulative-weight interval holds `r`. */
  lemma {:induction false} SelectChoiceBrackets(cs: seq<WeightedText>, r: int, k: nat)
    requires k <= |cs|
    requires AdjustedPrefix(cs, k) <= r < AdjustedPrefix(cs, |cs|)
    ensures var j := SelectChoice(cs, r, k);
      k <= j < |cs| && AdjustedPrefix(cs, j) <= r < AdjustedPrefix(cs, j + 1)
    decreases |cs| - k
  {
    if k == |cs| {
    } else if r < AdjustedPrefix(cs, k + 1) {
    } else {
      SelectChoiceBrackets(cs, r, k + 1);
    }
  }

  /**
   * With choices present, `PickText` returns the text of choice `k`, where
   * `k` is the choice whose cumulative adjusted weights bracket the draw;
   * the draw always falls inside the scanned range, so the trailing
   * "first choice" return is never reached. Without choices it returns
   * `text` if non-empty, else the message text.
   */
  lemma PickedTextIsBracketedChoice(resp: RespondWrapper, draw: nat)
    ensures |resp.choose| > 0 ==>
      var cs := resp.choose;
      var r := draw % DrawBound(cs);
      exists k :: 0 <= k < |cs| && AdjustedPrefix(cs, k) <= r < AdjustedPrefix(cs, k + 1)
        && PickedText(resp, draw) == cs[k].text
    ensures |resp.choose| == 0 && resp.text != "" ==> PickedText(resp, draw) == resp.text
    ensures |resp.choose| == 0 && resp.text == "" ==> PickedText(resp, draw) == resp.message.text
  {
    var cs := resp.choose;
    if |cs| > 0 {
      AdjustedPrefixBounds(cs, |cs|);
      var r := draw % DrawBound(cs);
      assert AdjustedPrefix(cs, 0) <= r < AdjustedPrefix(cs, |cs|);
      SelectChoiceBrackets(cs, r, 0);
      var k := SelectChoice(cs, r, 0);
      assert AdjustedPrefix(cs, k) <= r < AdjustedPrefix(cs, k + 1);
    }
  }

  /** The chosen interval is unique: the bracketing choice is the only one containing the draw. */
  lemma BracketIsUnique(cs: seq<WeightedText>, r: int, k: nat, k': nat)
    requires k < |cs| && k' < |cs|
    requires AdjustedPrefix(cs, k) <= r < AdjustedPrefix(cs, k + 1)
    requires AdjustedPrefix(cs, k') <= r < AdjustedPrefix(cs, k' + 1)
    ensures k == k'
  {
    if k < k' {
      AdjustedPrefixMonotone(cs, k + 1, k');
    } else if k' < k {
      AdjustedPrefixMonotone(cs, k' + 1, k);
    }
  }

  // ---------------------------------------------------------------------------
  // Templates
  // ---------------------------------------------------------------------------

  function Placeholder(key: string): string
  {
    "{{" + key + "}}"
  }

  /** A sequence listing each element of `keys` exactly once: an iteration order of a Go map. */
  ghost predicate IsEnumeration(order: seq<string>, keys: set<string>)
  {
    Distinct(order) && forall k :: k in order <==> k in keys
  }

  /**
   * Template expansion when the context keys are visited in `order`: each
   * visited key's placeholder is replaced, everywhere in the current text,
   * by the key's value. Keys in `order` that are not in the context are skipped.
   */
  function Render(s: string, ctx: map<string, string>, order: seq<string>): string
    decreases |order|
  {
    if order == [] then s
    else
      var k := order[0];
      Render(if k in ctx then ReplaceAll(s, Placeholder(k), ctx[k]) else s, ctx, order[1..])
  }

  method RenderTemplate(s: string, ctx: map<string, string>, order: seq<string>) returns (out: string)
    requires IsEnumeration(order, ctx.Keys)
    ensures out == Render(s, ctx, order)
  {
    out := s;
    for i := 0 to |order|
      invariant Render(s, ctx, order) == Render(out, ctx, order[i..])
    {
      var k := order[i];
      assert order[i..][0] == k && order[i..][1..] == order[i + 1..];
      out := ReplaceAll(out, "{{" + k + "}}", ctx[k]);
    }
    assert order[|order|..] == [];
  }

  /**
   * A text holding no placeholder of any context key (in particular any text
   * under an empty context) is returned unchanged, whatever the visiting order.
   */
  lemma {:induction false} RenderWithoutPlaceholders(s: string, ctx: map<string, string>, order: seq<string>)
    requires forall k :: k in ctx ==> !Contains(s, Placeholder(k))
    ensures Render(s, ctx, order) == s
    decreases |order|
  {
    if order != [] {
      var k := order[0];
      if k in ctx {
        ReplaceAllAbsent(s, Placeholder(k), ctx[k]);
      }
      RenderWithoutPlaceholders(s, ctx, order[1..]);
    }
  }

  /**
   * A placeholder of a context key, between texts holding no `{`, is
   * replaced by the key's value, whatever order the keys are visited in,
   * when the value holds no `{` and no key holds `}` (the key itself no `{`).
   */
  lemma RenderReplacesPlaceholder(a: string, k: string, b: string, ctx: map<string, string>, order: seq<string>)
    requires IsEnumeration(order, ctx.Keys) && k in ctx
    requires '{' !in a && '{' !in b && '{' !in k && '{' !in ctx[k]
    requires forall j :: j in ctx ==> '}' !in j
    ensures Render(a + Placeholder(k) + b, ctx, order) == a + ctx[k] + b
  {
    RenderVisits(a, k, b, ctx, order);
  }

  /** Until `k` is visited the text keeps its placeholder; visiting `k` replaces it; then nothing changes. */
  lemma {:induction false} RenderVisits(a: string, k: string, b: string, ctx: map<string, string>, order: seq<string>)
    requires k in ctx && k in order
    requires '{' !in a && '{' !in b && '{' !in k && '{' !in ctx[k]
    requires forall j :: j in ctx ==> '}' !in j
    ensures Render(a + Placeholder(k) + b, ctx, order) == a + ctx[k] + b
    decreases |order|
  {
    var j := order[0];
    if j == k {
      ReplaceOwnPlaceholder(a, k, b, ctx[k]);
      RenderBraceFree(a + ctx[k] + b, ctx, order[1..]);
    } else {
      if j in ctx {
        ReplaceOtherPlaceholder(a, k, b, j, ctx[j]);
      }
      assert k in order[1..] by {
        var i :| 0 <= i < |order| && order[i] == k;
        assert i > 0 && order[1..][i - 1] == k;
      }
      RenderVisits(a, k, b, ctx, order[1..]);
    }
  }

  /** Text without `{` renders to itself. */
  lemma {:induction false} RenderBraceFree(s: string, ctx: map<string, string>, order: seq<string>)
    requires '{' !in s
    ensures Render(s, ctx, order) == s
    decreases |order|
  {
    if order != [] {
      if order[0] in ctx {
        ReplaceAllWithoutFirst(s, Placeholder(order[0]), ctx[order[0]]);
      }
      RenderBraceFree(s, ctx, order[1..]);
    }
  }

  /** Replacing a key's own placeholder. */
  lemma ReplaceOwnPlaceholder(a: string, k: string, b: string, v: string)
    requires '{' !in a && '{' !in b
    ensures ReplaceAll(a + Placeholder(k) + b, Placeholder(k), v) == a + v + b
  {
    var p := Placeholder(k);
    assert a + p + b == a + (p + b);
    ReplaceAllAfterPrefix(a, p + b, p, v);
    assert (p + b)[..|p|] == p && (p + b)[|p|..] == b;
    ReplaceAllWithoutFirst(b, p, v);
  }

  /** Replacing another key's placeholder leaves the text as it was. */
  lemma ReplaceOtherPlaceholder(a: string, k: string, b: string, j: string, v: string)
    requires j != k && '{' !in a && '{' !in b && '{' !in k && '}' !in k && '}' !in j
    ensures ReplaceAll(a + Placeholder(k) + b, Placeholder(j), v) == a + Placeholder(k) + b
  {
    var p := Placeholder(j);
    var s := Placeholder(k) + b;
    assert a + Placeholder(k) + b == a + s;
    ReplaceAllAfterPrefix(a, s, p, v);
    PlaceholderMismatch(k, b, j);
    var rest := k + "}}";
    assert s[1..] == "{" + (rest + b);
    if |s[1..]| >= |p| {
      assert s[1..][..|p|][1] != p[1];
    }
    assert '{' !in rest;
    ReplaceAllAfterPrefix(rest, b, p, v);
    ReplaceAllWithoutFirst(b, p, v);
    assert "{" + (rest + b) == ['{'] + (rest + b);
    ReplaceAllAfterPrefix(['{'], rest + b, "}", v);
    assert s[1..][1..] == rest + b;
    assert s == [s[0]] + s[1..];
  }

  /** Another key's placeholder does not open a key's placeholder followed by any text. */
  lemma PlaceholderMismatch(k: string, b: string, j: string)
    requires j != k && '}' !in k && '}' !in j
    ensures var s := Placeholder(k) + b; |s| < |Placeholder(j)| || s[..|Placeholder(j)|] != Placeholder(j)
  {
    var s := Placeholder(k) + b;
    var p := Placeholder(j);
    if |s| >= |p| {
      var d: nat;
      if |j| < |k| {
        d := |j| + 2;
        assert s[d] == k[|j|] && p[d] == '}';
      } else if |j| > |k| {
        d := |k| + 2;
        assert s[d] == '}' && p[d] == j[|k|];
      } else {
        var i :| 0 <= i < |k| && k[i] != j[i];
        d := i + 2;
        assert s[d] == k[i] && p[d] == j[i];
      }
      assert s[..|p|][d] != p[d];
    }
  }

  // ---------------------------------------------------------------------------
  // Template context
  // ---------------------------------------------------------------------------

  function BuiltinContext(model: string, lastUser: string, fullText: string, timestamp: string): map<string, string>
  {
    map["model" := model, "last_user_message" := lastUser, "input_text" := fullText, "timestamp" := timestamp]
  }

  function ContextKeys(cfg: Option<BotConfig>): set<string>
  {
    {"model", "last_user_message", "input_text", "timestamp"} + (if cfg.Some? then cfg.value.variables.Keys else {})
  }

  /** The built-in keys, overwritten by the configured variables of the same name. */
  function TemplateContext(cfg: Option<BotConfig>, model: string, lastUser: string, fullText: string, timestamp: string)
    : map<string, string>
  {
    BuiltinContext(model, lastUser, fullText, timestamp) + (if cfg.Some? then cfg.value.variables else map[])
  }

  method BuildTemplateContext(cfg: Option<BotConfig>, model: string, lastUser: string, fullText: string, timestamp: string)
    returns (ctx: map<string, string>)
    ensures ctx == TemplateContext(cfg, model, lastUser, fullText, timestamp)
  {
    var builtin := BuiltinContext(model, lastUser, fullText, timestamp);
    ctx := builtin;
    if cfg.Some? {
      var vars := cfg.value.variables;
      var pending := vars.Keys;
      while pending != {}
        invariant pending <= vars.Keys
        invariant ctx.Keys == builtin.Keys + (vars.Keys - pending)
        invariant forall k :: k in ctx ==> ctx[k] == if k in vars && k !in pending then vars[k] else builtin[k]
        decreases |pending|
      {
        var k :| k in pending;
        ctx := ctx[k := vars[k]];
        pending := pending - {k};
      }
      assert ctx == builtin + vars;
    }
  }

  /**
   * The context holds the four built-in keys and every configured variable;
   * a configured variable overrides the built-in value of the same name.
   */
  lemma TemplateContextPrecedence(cfg: Option<BotConfig>, model: string, lastUser: string, fullText: string, timestamp: string)
    ensures var ctx := TemplateContext(cfg, model, lastUser, fullText, timestamp);
      && ctx.Keys == ContextKeys(cfg)
      && (forall k :: cfg.Some? && k in cfg.value.variables ==> ctx[k] == cfg.value.variables[k])
      && (!(cfg.Some? && "model" in cfg.value.variables) ==> ctx["model"] == model)
      && (!(cfg.Some? && "last_user_message" in cfg.value.variables) ==> ctx["last_user_message"] == lastUser)
      && (!(cfg.Some? && "input_text" in cfg.value.variables) ==> ctx["input_text"] == fullText)
      && (!(cfg.Some? && "timestamp" in cfg.value.variables) ==> ctx["timestamp"] == timestamp)
  {
  }

  /** The context holds exactly the built-in keys and the configured variables. */
  lemma TemplateContextKeys(cfg: Option<BotConfig>, model: string, lastUser: string, fullText: string, timestamp: string)
    ensures TemplateContext(cfg, model, lastUser, fullText, timestamp).Keys == ContextKeys(cfg)
  {
    TemplateContextPrecedence(cfg, model, lastUser, fullText, timestamp);
  }

  // ---------------------------------------------------------------------------
  // Rule evaluation
  // ---------------------------------------------------------------------------

  /** What a rule is matched against. */
  datatype Query = Query(endpoint: string, model: string, role: string, lastUser: string, fullText: string)

  /** A selected rule, its position in the rule list and its streaming delay in milliseconds. */
  datatype MatchedRule = MatchedRule(index: nat, rule: Rule, delayMs: int)

  /** Some keyword occurs, ignoring ASCII case, in the last user message or the full text. */
  predicate KeywordHit(keys: seq<string>, lastUser: string, fullText: string)
  {
    exists c :: c in keys && (Contains(ToLower(lastUser), ToLower(c)) || Contains(ToLower(fullText), ToLower(c)))
  }

  method KeywordFound(keys: seq<string>, lastUser: string, fullText: string) returns (found: bool)
    ensures found <==> KeywordHit(keys, lastUser, fullText)
  {
    var lu := ToLower(lastUser);
    var ft := ToLower(fullText);
    found := false;
    var i := 0;
    while i < |keys|
      invariant 0 <= i <= |keys|
      invariant forall j :: 0 <= j < i ==> !Contains(lu, ToLower(keys[j])) && !Contains(ft, ToLower(keys[j]))
    {
      var c := ToLower(keys[i]);
      if Contains(lu, c) || Contains(ft, c) {
        assert keys[i] in keys;
        found := true;
        return;
      }
      i := i + 1;
    }
  }

  /** The probability gate, for the draw `coin` in [0, 1). */
  predicate ProbabilityPasses(p: Option<real>, coin: real)
  {
    p.None? || (p.value > 0.0 && (p.value >= 1.0 || coin <= p.value))
  }

  /** Every filter of a rule, in the order the Go loop applies them. */
  predicate RuleMatches(r: Rule, q: Query, re: RegexEngine, coin: real)
  {
    && (r.condition.endpoint == "" || r.condition.endpoint == q.endpoint)
    && IsModelMatch(q.model, r.condition.model)
    && (r.condition.role == "" || r.condition.role == q.role)
    && (|r.condition.contains| == 0 || KeywordHit(r.condition.contains, q.lastUser, q.fullText))
    && (r.condition.regex == "" || (re.compiles(r.condition.regex) && re.matches(r.condition.regex, q.fullText)))
    && ProbabilityPasses(r.probability, coin)
  }

  /** Rule `j` of the list passes its filters in this request. */
  predicate Hit(rules: seq<Rule>, q: Query, env: Env, j: int)
    requires 0 <= j < |rules|
  {
    RuleMatches(rules[j], q, env.regex, env.coin(j))
  }

  function Matched(rules: seq<Rule>, streaming: StreamingConfig, i: nat): MatchedRule
    requires i < |rules|
  {
    MatchedRule(i, rules[i], GetStreamingDelayMs(streaming, rules[i].streamOverride, 150))
  }

  /** The rule loop from position `i` on, `current` being the match kept so far. */
  function ScanRules(rules: seq<Rule>, streaming: StreamingConfig, q: Query, env: Env, i: nat, current: Option<MatchedRule>)
    : Option<MatchedRule>
    requires i <= |rules|
    decreases |rules| - i
  {
    if i == |rules| then current
    else if Hit(rules, q, env, i) then
      if rules[i].continues then ScanRules(rules, streaming, q, env, i + 1, Some(Matched(rules, streaming, i)))
      else Some(Matched(rules, streaming, i))
    else ScanRules(rules, streaming, q, env, i + 1, current)
  }

  /** The rule selected for a request: none without a configuration or rules. */
  function Evaluate(cfg: Option<BotConfig>, q: Query, env: Env): Option<MatchedRule>
  {
    if cfg.None? || |cfg.value.rules| == 0 then None
    else ScanRules(cfg.value.rules, cfg.value.streaming, q, env, 0, None)
  }

  method EvaluateRules(cfg: Option<BotConfig>, q: Query, env: Env) returns (m: Option<MatchedRule>)
    ensures m == Evaluate(cfg, q, env)
  {
    if cfg.None? || |cfg.value.rules| == 0 {
      return None;
    }
    var rules := cfg.value.rules;
    m := None;
    var i := 0;
    while i < |rules|
      invariant 0 <= i <= |rules|
      invariant Evaluate(cfg, q, env) == ScanRules(rules, cfg.value.streaming, q, env, i, m)
    {
      var r := rules[i];
      var passes := true;
      if r.condition.endpoint != "" && r.condition.endpoint != q.endpoint {
        passes := false;
      } else if !IsModelMatch(q.model, r.condition.model) {
        passes := false;
      } else if r.condition.role != "" && r.condition.role != q.role {
        passes := false;
      } else {
        if |r.condition.contains| > 0 {
          passes := KeywordFound(r.condition.contains, q.lastUser, q.fullText);
        }
        if passes && r.condition.regex != "" {
          passes := env.regex.compiles(r.condition.regex) && env.regex.matches(r.condition.regex, q.fullText);
        }
        if passes && r.probability.Some? {
          var p := r.probability.value;
          if p <= 0.0 {
            passes := false;
          } else if p < 1.0 && env.coin(i) > p {
            passes := false;
          }
        }
      }
      if passes {
        m := Some(MatchedRule(i, r, GetStreamingDelayMs(cfg.value.streaming, r.streamOverride, 150)));
        if !r.continues {
          return;
        }
      }
      i := i + 1;
    }
  }

  /** What the scan knows after looking at the first `i` rules. */
  ghost predicate ScanInvariant(rules: seq<Rule>, streaming: StreamingConfig, q: Query, env: Env, i: nat, current: Option<MatchedRule>)
    requires i <= |rules|
  {
    && (forall j :: 0 <= j < i && Hit(rules, q, env, j) ==> rules[j].continues)
    && (current.None? ==> forall j :: 0 <= j < i ==> !Hit(rules, q, env, j))
    && (current.Some? ==>
          && current.value.index < i
          && current.value == Matched(rules, streaming, current.value.index)
          && Hit(rules, q, env, current.value.index)
          && forall j :: current.value.index < j < i ==> !Hit(rules, q, env, j))
  }

  /** What the scan's result means. */
  ghost predicate Selects(rules: seq<Rule>, streaming: StreamingConfig, q: Query, env: Env, m: Option<MatchedRule>)
  {
    && (m.None? ==> forall j :: 0 <= j < |rules| ==> !Hit(rules, q, env, j))
    && (m.Some? ==>
          var k := m.value.index;
          && k < |rules|
          && m.value == Matched(rules, streaming, k)
          && Hit(rules, q, env, k)
          && (forall j :: 0 <= j < k && Hit(rules, q, env, j) ==> rules[j].continues)
          && (rules[k].continues ==> forall j :: k < j < |rules| ==> !Hit(rules, q, env, j)))
  }

  lemma {:induction false} ScanRulesSelects(rules: seq<Rule>, streaming: StreamingConfig, q: Query, env: Env, i: nat, current: Option<MatchedRule>)
    requires i <= |rules|
    requires ScanInvariant(rules, streaming, q, env, i, current)
    ensures Selects(rules, streaming, q, env, ScanRules(rules, streaming, q, env, i, current))
    decreases |rules| - i
  {
    if i == |rules| {
    } else if Hit(rules, q, env, i) {
      if rules[i].continues {
        ScanRulesSelects(rules, streaming, q, env, i + 1, Some(Matched(rules, streaming, i)));
      }
    } else {
      ScanRulesSelects(rules, streaming, q, env, i + 1, current);
    }
  }

  /**
   * The selected rule passes every filter; every matching rule before it
   * has `continue` set; if it has `continue` set itself, no later rule
   * matches (so it is the last match); its delay follows the delay
   * precedence with a default of 150 ms. Nothing is selected exactly when
   * there is no configuration, no rule, or no rule that matches.
   */
  lemma EvaluateSelects(cfg: Option<BotConfig>, q: Query, env: Env)
    ensures Evaluate(cfg, q, env).None? <==>
      cfg.None? || forall j :: 0 <= j < |cfg.value.rules| ==> !Hit(cfg.value.rules, q, env, j)
    ensures cfg.Some? ==> Selects(cfg.value.rules, cfg.value.streaming, q, env, Evaluate(cfg, q, env))
  {
    if cfg.Some? && |cfg.value.rules| > 0 {
      ScanRulesSelects(cfg.value.rules, cfg.value.streaming, q, env, 0, None);
    }
  }

  /**
   * The filters spelled out: a selected rule's endpoint is empty or equal,
   * its model list is empty or names the model, its role is empty or equal,
   * and its keyword list is empty or some keyword occurs in the last user
   * message or the full text, ignoring ASCII case.
   */
  lemma SelectedRulePassesFilters(cfg: Option<BotConfig>, q: Query, env: Env)
    ensures var m := Evaluate(cfg, q, env);
      m.Some? ==>
        var c := m.value.rule.condition;
        && (c.endpoint == "" || c.endpoint == q.endpoint)
        && (|c.model| == 0 || q.model in c.model)
        && (c.role == "" || c.role == q.role)
        && (|c.contains| == 0 || exists k :: (k in c.contains
              && (Contains(ToLower(q.lastUser), ToLower(k)) || Contains(ToLower(q.fullText), ToLower(k)))))
        && (c.regex != "" ==> env.regex.compiles(c.regex))
  {
    EvaluateSelects(cfg, q, env);
  }

  /** A rule whose regex does not compile, or whose probability is at most 0, never matches; a probability of at least 1 is no gate. */
  lemma GatesThatDecide(r: Rule, q: Query, re: RegexEngine, coin: real)
    ensures r.condition.regex != "" && !re.compiles(r.condition.regex) ==> !RuleMatches(r, q, re, coin)
    ensures r.probability.Some? && r.probability.value <= 0.0 ==> !RuleMatches(r, q, re, coin)
    ensures r.probability.Some? && r.probability.value >= 1.0 ==>
      (RuleMatches(r, q, re, coin) <==> RuleMatches(r.(probability := None), q, re, coin))
  {
  }

  // ---------------------------------------------------------------------------
  // The built-in configuration
  // ---------------------------------------------------------------------------

  function Chat(keys: seq<string>): Match { NoMatch.(endpoint := "chat", contains := keys) }
  function Responses(keys: seq<string>): Match { NoMatch.(endpoint := "responses", contains := keys) }
  function Plain(id: string, condition: Match, respond: RespondWrapper): Rule { Rule(id, condition, respond, None, false, None) }

  /** The configuration used when no YAML file can be read. */
  function DefaultConfig(): BotConfig
  {
    BotConfig(
      1,
      ServerConfig("3117", "*"),
      [ModelConfig("gpt-4o", "openai"), ModelConfig("gpt-4o-mini", "openai"), ModelConfig("gpt-3.5-turbo", "openai")],
      StreamingConfig(Some(true), Some(120)),
      ToolsConfig(
        ["web_search", "file_search"],
        map["custom_demo" := ToolDef("custom_demo_call", "completed", Some(MessageOut("Custom tool ran with input: '{{input_text}}'", [])))]),
      map["bot_name" := "Mock OpenAI"],
      [ Plain("greet", Chat(["hello", "hi"]), EmptyRespond.(text := "Hello! I'm {{bot_name}}. How can I help?")),
        Plain("jokes", Chat(["joke"]), EmptyRespond.(choose := [
          WeightedText(1, "Why don't scientists trust atoms? They make up everything!"),
          WeightedText(1, "What do you call a fake noodle? An impasta!")])),
        Plain("chat_with_search", Chat(["search", "latest"]),
          EmptyRespond.(useTools := ["web_search"], text := "Summary above. Let me know if you want more details.")),
        Plain("responses_web_search", Responses(["news", "latest", "AI"]),
          EmptyRespond.(useTools := ["web_search"], message := MessageOut("Here are the latest AI headlines with citations.", []))),
        Plain("responses_custom_tool", Responses(["custom tool"]), EmptyRespond.(useTools := ["custom_demo"])) ],
      EmptyRespond.(text := "This is a mock response to: '{{last_user_message}}'."))
  }
}
