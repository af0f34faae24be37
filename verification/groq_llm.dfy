/**
 * The Groq chat plugin: constructor parameter selection, the supported-model
 * list, the request parameters assembled for a chat completion, the streamed
 * tool-call fragments gathered per call id and emitted when the model finishes
 * with a tool or function call, and the base-URL choice of the OpenAILLM alias.
 * The HTTP client and the stream itself are not modelled: the stream's chunks
 * and json.loads are parameters.
 */
module GroqLlm {
  import opened Wrappers
  import opened Strings
  import opened PyJson
  import opened Seqs
  import CvEstimator

  const DefaultModel := "qwen/qwen3-32b"
  const DefaultBaseUrl := "https://api.groq.com/openai/v1"
  const OpenAiBaseUrl := "https://api.openai.com/v1"
  const VersionSuffix := "/v1"
  const GroqHost := "groq.com"
  const LegacyCallId := "legacy_function_call"

  const Mixtral := "mixtral-8x7b-32768"
  const Gemma := "gemma-7b-it"
  const Gemma2 := "gemma2-9b-it"

  datatype LlmError = MissingGroqKey | MissingOpenAiKey

  // ---- constructor parameters ----

  /** `stop` is one sequence or a list of them. */
  datatype Stop = StopText(text: string) | StopList(items: seq<string>)

  /** The keyword arguments of GroqLLM(...) other than the API key; floats are reals. */
  datatype LlmArgs = LlmArgs(
    model: string,
    baseUrl: string,
    temperature: real,
    toolChoice: string,
    maxCompletionTokens: Option<int>,
    maxTokens: Option<int>,
    frequencyPenalty: Option<real>,
    presencePenalty: Option<real>,
    seed: Option<int>,
    stop: Option<Stop>)

  /** The defaults of the constructor's signature. */
  function DefaultArgs(): LlmArgs
  {
    LlmArgs(DefaultModel, DefaultBaseUrl, 0.7, "auto", None, None, None, None, None, None)
  }

  /** The attributes a constructed plugin keeps. */
  datatype Settings = Settings(
    apiKey: string,
    model: string,
    baseUrl: string,
    temperature: real,
    toolChoice: string,
    maxCompletionTokens: Option<int>,
    frequencyPenalty: Option<real>,
    presencePenalty: Option<real>,
    seed: Option<int>,
    stop: Option<Stop>)

  /** `max_completion_tokens or max_tokens`: the first when it is set and non-zero, else the second. */
  function MaxCompletionTokens(given: Option<int>, legacy: Option<int>): (r: Option<int>)
    ensures given.Some? && given.value != 0 ==> r == given
    ensures given.None? || given.value == 0 ==> r == legacy
  {
    if given.Some? && given.value != 0 then given else legacy
  }

  /** A zero completion limit counts as unset, so the legacy limit takes its place. */
  lemma ZeroLimitFallsBack(legacy: Option<int>)
    ensures MaxCompletionTokens(Some(0), legacy) == legacy
    ensures MaxCompletionTokens(None, legacy) == legacy
  {
  }

  /**
   * GroqLLM.__init__: the key is the argument or the GROQ_API_KEY
   * environment value, and its absence is the ValueError; every other
   * attribute is the argument as given, except the completion limit.
   */
  function Configure(apiKey: Option<string>, envKey: Option<string>, args: LlmArgs): (r: Result<Settings, LlmError>)
    ensures r.Err? <==> CvEstimator.ApiKey(apiKey, envKey).None?
    ensures r.Err? ==> r.error == MissingGroqKey
    ensures r.Ok? ==> Some(r.value.apiKey) == CvEstimator.ApiKey(apiKey, envKey) && r.value.apiKey != ""
    ensures r.Ok? ==> r.value.maxCompletionTokens == MaxCompletionTokens(args.maxCompletionTokens, args.maxTokens)
    ensures r.Ok? ==> (r.value.model == args.model && r.value.baseUrl == args.baseUrl && r.value.seed == args.seed
      && r.value.stop == args.stop && r.value.toolChoice == args.toolChoice && r.value.temperature == args.temperature
      && r.value.frequencyPenalty == args.frequencyPenalty && r.value.presencePenalty == args.presencePenalty)
  {
    match CvEstimator.ApiKey(apiKey, envKey)
    case None => Err(MissingGroqKey)
    case Some(key) =>
      Ok(Settings(key, args.model, args.baseUrl, args.temperature, args.toolChoice,
                  MaxCompletionTokens(args.maxCompletionTokens, args.maxTokens),
                  args.frequencyPenalty, args.presencePenalty, args.seed, args.stop))
  }

  // ---- supported models ----

  function SupportedModels(): (r: seq<string>)
    ensures |r| == 3
  {
    [Mixtral, Gemma, Gemma2]
  }

  predicate IsModelSupported(model: string)
  {
    model in SupportedModels()
  }

  /** Exactly the three listed models are supported. */
  lemma SupportedExactly(model: string)
    ensures IsModelSupported(model) <==> model == Mixtral || model == Gemma || model == Gemma2
  {
    assert SupportedModels()[0] == Mixtral && SupportedModels()[1] == Gemma && SupportedModels()[2] == Gemma2;
  }

  /** The constructor's default model is not one the list calls supported. */
  lemma DefaultModelNotListed()
    ensures !IsModelSupported(DefaultModel)
  {
    SupportedExactly(DefaultModel);
    assert DefaultModel[0] == 'q';
    assert Mixtral[0] == 'm' && Gemma[0] == 'g' && Gemma2[0] == 'g';
  }

  // ---- request parameters ----

  /** A value of the completion request body. */
  datatype Param =
    | PText(text: string)
    | PReal(x: real)
    | PInt(i: int)
    | PBool(b: bool)
    | PStop(stop: Stop)
    | PMessages(messages: seq<Json>)
    | PTools(functions: seq<Json>)

  /**
   * A tool offered to the model: whether it is a function tool, and the
   * "function" part of its OpenAI schema, or None when building the schema
   * raised (the error is reported as an event and the tool skipped).
   */
  datatype Tool = Tool(isFunctionTool: bool, schema: Option<Json>)

  predicate Formattable(t: Tool) { t.isFunctionTool && t.schema.Some? }

  /** The schema of each tool in `ts`, in order. */
  function Schemas(ts: seq<Tool>): (r: seq<Json>)
    requires forall i :: 0 <= i < |ts| ==> ts[i].schema.Some?
    ensures |r| == |ts| && forall i :: 0 <= i < |ts| ==> r[i] == ts[i].schema.value
  {
    seq(|ts|, i requires 0 <= i < |ts| => ts[i].schema.value)
  }

  /** The schemas of the tools that are function tools and could be formatted, in order. */
  function FormattedTools(tools: seq<Tool>): (r: seq<Json>)
    ensures |r| == |Filter(tools, Formattable)| <= |tools|
    ensures forall i :: 0 <= i < |r| ==> exists j :: 0 <= j < |tools| && Formattable(tools[j]) && tools[j].schema.value == r[i]
    ensures forall j :: 0 <= j < |tools| && Formattable(tools[j]) ==> tools[j].schema.value in r
    ensures r == [] <==> forall j :: 0 <= j < |tools| ==> !Formattable(tools[j])
  {
    var kept := Filter(tools, Formattable);
    var r := Schemas(kept);
    assert forall j :: 0 <= j < |tools| && Formattable(tools[j]) ==> tools[j].schema.value in r by {
      forall j | 0 <= j < |tools| && Formattable(tools[j]) ensures tools[j].schema.value in r {
        var k :| 0 <= k < |kept| && kept[k] == tools[j];
        assert r[k] == tools[j].schema.value;
      }
    }
    assert kept != [] ==> kept[0] in tools && Formattable(kept[0]);
    assert forall i :: 0 <= i < |r| ==> kept[i] in tools;
    r
  }

  /** The schemas come in the tools' order: one tool more at the end adds its schema last when it is formattable. */
  lemma FormattedToolsSnoc(tools: seq<Tool>, t: Tool)
    ensures FormattedTools(tools + [t]) == FormattedTools(tools) + (if Formattable(t) then [t.schema.value] else [])
  {
    FilterSnoc(tools, t, Formattable);
  }

  /** `key` holds `v` when there is one, and is absent otherwise. */
  predicate Carries(params: map<string, Param>, key: string, v: Option<Param>)
  {
    if v.Some? then key in params && params[key] == v.value else key !in params
  }

  function IntParam(v: Option<int>): Option<Param> { if v.Some? then Some(PInt(v.value)) else None }
  function RealParam(v: Option<real>): Option<Param> { if v.Some? then Some(PReal(v.value)) else None }
  function StopParam(v: Option<Stop>): Option<Param> { if v.Some? then Some(PStop(v.value)) else None }

  /** Adds key only when there is a value: the `if ... is not None` blocks. */
  function WithOptional(params: map<string, Param>, key: string, v: Option<Param>): (r: map<string, Param>)
    ensures Carries(r, key, v) || (v.None? && key in params)
    ensures forall k :: k != key ==> (k in r <==> k in params) && (k in params ==> r[k] == params[k])
  {
    if v.Some? then params[key := v.value] else params
  }

  const OptionalKeys: set<string> := {"max_completion_tokens", "frequency_penalty", "presence_penalty", "seed", "stop"}
  const FixedKeys: set<string> := {"model", "messages", "temperature", "stream"}
  const ToolKeys: set<string> := {"tools", "tool_choice"}

  /** The entries every request has. */
  function FixedParams(s: Settings, messages: seq<Json>): (r: map<string, Param>)
    ensures Carries(r, "model", Some(PText(s.model))) && Carries(r, "messages", Some(PMessages(messages)))
    ensures Carries(r, "temperature", Some(PReal(s.temperature))) && Carries(r, "stream", Some(PBool(true)))
    ensures r.Keys == FixedKeys
  {
    map["model" := PText(s.model), "messages" := PMessages(messages),
        "temperature" := PReal(s.temperature), "stream" := PBool(true)]
  }

  /** The optional entries, each added only when its setting is not None. */
  function AddOptionals(base: map<string, Param>, s: Settings): (r: map<string, Param>)
    requires base.Keys !! OptionalKeys
    ensures Carries(r, "max_completion_tokens", IntParam(s.maxCompletionTokens))
    ensures Carries(r, "frequency_penalty", RealParam(s.frequencyPenalty))
    ensures Carries(r, "presence_penalty", RealParam(s.presencePenalty))
    ensures Carries(r, "seed", IntParam(s.seed))
    ensures Carries(r, "stop", StopParam(s.stop))
    ensures forall k :: k !in OptionalKeys ==> (k in r <==> k in base) && (k in base ==> r[k] == base[k])
  {
    var p1 := WithOptional(base, "max_completion_tokens", IntParam(s.maxCompletionTokens));
    var p2 := WithOptional(p1, "frequency_penalty", RealParam(s.frequencyPenalty));
    var p3 := WithOptional(p2, "presence_penalty", RealParam(s.presencePenalty));
    var p4 := WithOptional(p3, "seed", IntParam(s.seed));
    WithOptional(p4, "stop", StopParam(s.stop))
  }

  /** The tool entries, added only when some tool could be formatted. */
  function AddTools(base: map<string, Param>, s: Settings, formatted: seq<Json>): (r: map<string, Param>)
    requires base.Keys !! ToolKeys
    ensures Carries(r, "tools", if formatted != [] then Some(PTools(formatted)) else None)
    ensures Carries(r, "tool_choice", if formatted != [] then Some(PText(s.toolChoice)) else None)
    ensures forall k :: k !in ToolKeys ==> (k in r <==> k in base) && (k in base ==> r[k] == base[k])
  {
    if formatted != [] then base["tools" := PTools(formatted)]["tool_choice" := PText(s.toolChoice)] else base
  }

  /** The request body before the caller's extra keyword arguments: fixed, optional and tool entries. */
  function OwnParams(s: Settings, messages: seq<Json>, formatted: seq<Json>): (r: map<string, Param>)
    ensures Carries(r, "model", Some(PText(s.model))) && Carries(r, "messages", Some(PMessages(messages)))
    ensures Carries(r, "temperature", Some(PReal(s.temperature))) && Carries(r, "stream", Some(PBool(true)))
    ensures Carries(r, "max_completion_tokens", IntParam(s.maxCompletionTokens))
    ensures Carries(r, "frequency_penalty", RealParam(s.frequencyPenalty))
    ensures Carries(r, "presence_penalty", RealParam(s.presencePenalty))
    ensures Carries(r, "seed", IntParam(s.seed))
    ensures Carries(r, "stop", StopParam(s.stop))
    ensures Carries(r, "tools", if formatted != [] then Some(PTools(formatted)) else None)
    ensures Carries(r, "tool_choice", if formatted != [] then Some(PText(s.toolChoice)) else None)
    ensures forall k :: k in r ==> k in FixedKeys || k in OptionalKeys || k in ToolKeys
  {
    KeySetsDisjoint();
    var fixed := FixedParams(s, messages);
    var optional := AddOptionals(fixed, s);
    assert forall k :: k in FixedKeys ==> k !in OptionalKeys && k !in ToolKeys;
    AddTools(optional, s, formatted)
  }

  lemma KeySetsDisjoint()
    ensures FixedKeys !! OptionalKeys && FixedKeys !! ToolKeys && OptionalKeys !! ToolKeys
  {
  }

  /** completion_params.update(kwargs): the caller's keyword arguments override. */
  function CompletionParams(s: Settings, messages: seq<Json>, formatted: seq<Json>, kwargs: map<string, Param>)
    : (r: map<string, Param>)
    ensures forall k :: k in kwargs ==> k in r && r[k] == kwargs[k]
    ensures forall k :: k !in kwargs ==> ((k in r <==> k in OwnParams(s, messages, formatted))
      && (k in r ==> r[k] == OwnParams(s, messages, formatted)[k]))
  {
    OwnParams(s, messages, formatted) + kwargs
  }

  /**
   * Unless the caller overrides them, the optional entries are present
   * exactly when their setting is, and the tool entries exactly when some
   * tool could be formatted.
   */
  lemma OptionalOnlyWhenSet(s: Settings, messages: seq<Json>, tools: seq<Tool>, kwargs: map<string, Param>)
    requires kwargs.Keys !! OptionalKeys && kwargs.Keys !! ToolKeys
    ensures var r := CompletionParams(s, messages, FormattedTools(tools), kwargs);
      ("max_completion_tokens" in r <==> s.maxCompletionTokens.Some?)
      && ("frequency_penalty" in r <==> s.frequencyPenalty.Some?)
      && ("presence_penalty" in r <==> s.presencePenalty.Some?)
      && ("seed" in r <==> s.seed.Some?)
      && ("stop" in r <==> s.stop.Some?)
      && ("tools" in r <==> exists j :: 0 <= j < |tools| && Formattable(tools[j]))
      && ("tool_choice" in r <==> exists j :: 0 <= j < |tools| && Formattable(tools[j]))
  {
    var formatted := FormattedTools(tools);
    var own := OwnParams(s, messages, formatted);
    assert "max_completion_tokens" in OptionalKeys && "frequency_penalty" in OptionalKeys;
    assert "presence_penalty" in OptionalKeys && "seed" in OptionalKeys && "stop" in OptionalKeys;
    assert "tools" in ToolKeys && "tool_choice" in ToolKeys;
  }

  /**
   * With the constructor's defaults, no tools and no extra arguments, the
   * request carries only the model, the messages, the temperature and the
   * stream flag.
   */
  lemma DefaultRequestMinimal(key: string, envKey: Option<string>, messages: seq<Json>)
    requires key != ""
    ensures Configure(Some(key), envKey, DefaultArgs()).Ok?
    ensures CompletionParams(Configure(Some(key), envKey, DefaultArgs()).value, messages, [], map[]).Keys == FixedKeys
  {
    var s := Configure(Some(key), envKey, DefaultArgs()).value;
    var r := CompletionParams(s, messages, [], map[]);
    KeySetsDisjoint();
    assert forall k :: k in r ==> k in FixedKeys;
  }

  // ---- streamed tool calls ----

  /** One `delta.tool_calls` element. */
  datatype ToolCallDelta = ToolCallDelta(id: string, kind: string, name: Option<string>, arguments: Option<string>)

  /** A legacy `delta.function_call`. */
  datatype FunctionCallDelta = FunctionCallDelta(name: Option<string>, arguments: Option<string>)

  datatype Delta = Delta(toolCalls: seq<ToolCallDelta>, functionCall: Option<FunctionCallDelta>, content: Option<string>)
  datatype Choice = Choice(delta: Delta, finishReason: Option<string>)
  datatype Chunk = Chunk(choices: seq<Choice>)

  /** A fragment of a call under its dictionary key; legacy fragments have no id of their own. */
  datatype CallFragment = CallFragment(key: string, hasId: bool, kind: string, name: Option<string>, arguments: Option<string>)

  function ToolFragment(d: ToolCallDelta): CallFragment
  {
    CallFragment(d.id, true, d.kind, d.name, d.arguments)
  }

  function LegacyFragment(d: FunctionCallDelta): CallFragment
  {
    CallFragment(LegacyCallId, false, "function", d.name, d.arguments)
  }

  function ToolFragments(ds: seq<ToolCallDelta>): (r: seq<CallFragment>)
    ensures |r| == |ds| && forall i :: 0 <= i < |ds| ==> r[i] == ToolFragment(ds[i])
  {
    seq(|ds|, i requires 0 <= i < |ds| => ToolFragment(ds[i]))
  }

  /** The fragments one chunk contributes: its tool calls, or else its legacy function call. */
  function FragmentsOf(c: Chunk): (r: seq<CallFragment>)
    ensures r != [] ==> c.choices != []
    ensures c.choices != [] && c.choices[0].delta.toolCalls != [] ==>
      |r| == |c.choices[0].delta.toolCalls|
      && forall i :: 0 <= i < |r| ==> r[i] == ToolFragment(c.choices[0].delta.toolCalls[i])
    ensures c.choices != [] && c.choices[0].delta.toolCalls == [] ==>
      r == if c.choices[0].delta.functionCall.Some? then [LegacyFragment(c.choices[0].delta.functionCall.value)] else []
  {
    if c.choices == [] then []
    else
      var d := c.choices[0].delta;
      if d.toolCalls != [] then ToolFragments(d.toolCalls)
      else if d.functionCall.Some? then [LegacyFragment(d.functionCall.value)]
      else []
  }

  /** A call being gathered: the `current_tool_calls` entry. */
  datatype PendingCall = PendingCall(hasId: bool, kind: string, name: string, arguments: string)

  /** `current_tool_calls`: a dict, so its keys in insertion order and the entry under each. */
  datatype PendingCalls = PendingCalls(order: seq<string>, entries: map<string, PendingCall>)

  const NoCalls := PendingCalls([], map[])

  predicate WellFormed(p: PendingCalls)
  {
    (forall k :: k in p.entries ==> k in p.order)
    && (forall k :: k in p.order ==> k in p.entries)
    && forall i, j :: 0 <= i < j < |p.order| ==> p.order[i] != p.order[j]
  }

  function OrEmpty(s: Option<string>): string { if s.Some? then s.value else "" }

  /** `if fragment: current += fragment`. */
  function Appended(current: string, fragment: Option<string>): (r: string)
    ensures r == current + OrEmpty(fragment)
  {
    if fragment.Some? && fragment.value != "" then current + fragment.value else current
  }

  /**
   * The first fragment for a key creates its entry (missing name and
   * arguments become ""); a later one appends its name and arguments.
   * No other entry changes.
   */
  function AddFragment(p: PendingCalls, f: CallFragment): (r: PendingCalls)
    ensures WellFormed(p) ==> WellFormed(r)
    ensures f.key in r.entries
    ensures forall k :: k != f.key ==> (k in r.entries <==> k in p.entries) && (k in p.entries ==> r.entries[k] == p.entries[k])
    ensures f.key in p.entries ==> r.order == p.order
    ensures f.key !in p.entries ==> r.order == p.order + [f.key]
  {
    if f.key in p.entries then
      var e := p.entries[f.key];
      PendingCalls(p.order, p.entries[f.key := e.(name := Appended(e.name, f.name), arguments := Appended(e.arguments, f.arguments))])
    else
      PendingCalls(p.order + [f.key], p.entries[f.key := PendingCall(f.hasId, f.kind, OrEmpty(f.name), OrEmpty(f.arguments))])
  }

  function AddAll(p: PendingCalls, fs: seq<CallFragment>): (r: PendingCalls)
    ensures WellFormed(p) ==> WellFormed(r)
  {
    if fs == [] then p else AddFragment(AddAll(p, fs[..|fs| - 1]), fs[|fs| - 1])
  }

  lemma {:induction false} AddAllConcat(p: PendingCalls, a: seq<CallFragment>, b: seq<CallFragment>)
    ensures AddAll(AddAll(p, a), b) == AddAll(p, a + b)
    decreases |b|
  {
    if b == [] {
      assert a + b == a;
    } else {
      assert (a + b)[..|a + b| - 1] == a + b[..|b| - 1];
      AddAllConcat(p, a, b[..|b| - 1]);
    }
  }

  // What the gathered entry for one key holds, stated on the fragments alone.

  function FirstFragment(fs: seq<CallFragment>, key: string): Option<CallFragment>
  {
    if fs == [] then None
    else
      var earlier := FirstFragment(fs[..|fs| - 1], key);
      if earlier.Some? then earlier
      else if fs[|fs| - 1].key == key then Some(fs[|fs| - 1])
      else None
  }

  function NamesOf(fs: seq<CallFragment>, key: string): string
  {
    if fs == [] then ""
    else NamesOf(fs[..|fs| - 1], key) + (if fs[|fs| - 1].key == key then OrEmpty(fs[|fs| - 1].name) else "")
  }

  function ArgumentsOf(fs: seq<CallFragment>, key: string): string
  {
    if fs == [] then ""
    else ArgumentsOf(fs[..|fs| - 1], key) + (if fs[|fs| - 1].key == key then OrEmpty(fs[|fs| - 1].arguments) else "")
  }

  /**
   * Starting from no calls, a key has an entry exactly when some fragment
   * carries it; the entry's kind and id come from its first fragment, and its
   * name and arguments are that key's fragments joined in arrival order.
   */
  lemma {:induction false} GatheredCall(fs: seq<CallFragment>, key: string)
    ensures key in AddAll(NoCalls, fs).entries <==> FirstFragment(fs, key).Some?
    ensures key in AddAll(NoCalls, fs).entries ==>
      var e := AddAll(NoCalls, fs).entries[key];
      var first := FirstFragment(fs, key).value;
      e.kind == first.kind && e.hasId == first.hasId
      && e.name == NamesOf(fs, key) && e.arguments == ArgumentsOf(fs, key)
  {
    if fs != [] {
      var init, f := fs[..|fs| - 1], fs[|fs| - 1];
      GatheredCall(init, key);
      var p := AddAll(NoCalls, init);
      assert AddAll(NoCalls, fs) == AddFragment(p, f);
      if f.key != key {
        GatherOtherKey(fs, key);
      } else if key in p.entries {
        GatherKnownKey(fs, key);
      } else {
        NoFragmentNoText(init, key);
        GatherNewKey(fs, key);
      }
    }
  }

  /** A fragment for another key leaves this key's entry and its text as they were. */
  lemma GatherOtherKey(fs: seq<CallFragment>, key: string)
    requires fs != [] && fs[|fs| - 1].key != key
    ensures var init := fs[..|fs| - 1];
      (key in AddAll(NoCalls, fs).entries <==> key in AddAll(NoCalls, init).entries)
      && (key in AddAll(NoCalls, init).entries ==> AddAll(NoCalls, fs).entries[key] == AddAll(NoCalls, init).entries[key])
      && FirstFragment(fs, key) == FirstFragment(init, key)
      && NamesOf(fs, key) == NamesOf(init, key) && ArgumentsOf(fs, key) == ArgumentsOf(init, key)
  {
    var init := fs[..|fs| - 1];
    ConcatEmpty(NamesOf(init, key));
    ConcatEmpty(ArgumentsOf(init, key));
  }

  /** A later fragment for a key appends its name and arguments to the entry. */
  lemma GatherKnownKey(fs: seq<CallFragment>, key: string)
    requires fs != [] && fs[|fs| - 1].key == key && key in AddAll(NoCalls, fs[..|fs| - 1]).entries
    requires FirstFragment(fs[..|fs| - 1], key).Some?
    ensures var init, f := fs[..|fs| - 1], fs[|fs| - 1];
      var e, e' := AddAll(NoCalls, init).entries[key], AddAll(NoCalls, fs).entries[key];
      e'.kind == e.kind && e'.hasId == e.hasId
      && e'.name == e.name + OrEmpty(f.name) && e'.arguments == e.arguments + OrEmpty(f.arguments)
      && FirstFragment(fs, key) == FirstFragment(init, key)
      && NamesOf(fs, key) == NamesOf(init, key) + OrEmpty(f.name)
      && ArgumentsOf(fs, key) == ArgumentsOf(init, key) + OrEmpty(f.arguments)
  {
  }

  /** The first fragment for a key creates the entry from that fragment alone. */
  lemma GatherNewKey(fs: seq<CallFragment>, key: string)
    requires fs != [] && fs[|fs| - 1].key == key && key !in AddAll(NoCalls, fs[..|fs| - 1]).entries
    requires FirstFragment(fs[..|fs| - 1], key).None?
    requires NamesOf(fs[..|fs| - 1], key) == "" && ArgumentsOf(fs[..|fs| - 1], key) == ""
    ensures var f := fs[|fs| - 1];
      var e' := AddAll(NoCalls, fs).entries[key];
      key in AddAll(NoCalls, fs).entries
      && e'.kind == f.kind && e'.hasId == f.hasId
      && e'.name == OrEmpty(f.name) && e'.arguments == OrEmpty(f.arguments)
      && FirstFragment(fs, key) == Some(f)
      && NamesOf(fs, key) == OrEmpty(f.name) && ArgumentsOf(fs, key) == OrEmpty(f.arguments)
  {
    var init := fs[..|fs| - 1];
    ConcatEmpty(OrEmpty(fs[|fs| - 1].name));
    ConcatEmpty(OrEmpty(fs[|fs| - 1].arguments));
  }

  /** A key no fragment carries has nothing gathered under it. */
  lemma {:induction false} NoFragmentNoText(fs: seq<CallFragment>, key: string)
    requires FirstFragment(fs, key).None?
    ensures NamesOf(fs, key) == "" && ArgumentsOf(fs, key) == ""
  {
    if fs != [] {
      NoFragmentNoText(fs[..|fs| - 1], key);
    }
  }

  // ---- emission ----

  /** A call as it is handed on: the id (absent for the legacy entry), kind, name and parsed arguments. */
  datatype EmittedCall = EmittedCall(id: Option<string>, kind: string, name: string, arguments: Json)

  datatype LlmResponse = Text(content: string) | Call(call: EmittedCall)

  /** json.loads as a partial function: None is the JSONDecodeError. */
  type JsonLoads = string -> Option<Json>

  /** The parsed arguments, or `{}` when they are not valid JSON. */
  function ParsedArguments(raw: string, loads: JsonLoads): (r: Json)
    ensures loads(raw).Some? ==> r == loads(raw).value
    ensures loads(raw).None? ==> r == JObj([])
  {
    match loads(raw)
    case Some(j) => j
    case None => JObj([])
  }

  function Emit(key: string, e: PendingCall, loads: JsonLoads): EmittedCall
  {
    EmittedCall(if e.hasId then Some(key) else None, e.kind, e.name, ParsedArguments(e.arguments, loads))
  }

  /** Every gathered call once, in the order its key first arrived. */
  function EmitKeys(order: seq<string>, entries: map<string, PendingCall>, loads: JsonLoads): (r: seq<EmittedCall>)
    requires forall k :: k in order ==> k in entries
    ensures |r| == |order|
    ensures forall i :: 0 <= i < |order| ==>
      r[i].name == entries[order[i]].name && r[i].kind == entries[order[i]].kind
      && r[i].id == (if entries[order[i]].hasId then Some(order[i]) else None)
      && r[i].arguments == ParsedArguments(entries[order[i]].arguments, loads)
  {
    if order == [] then []
    else EmitKeys(order[..|order| - 1], entries, loads) + [Emit(order[|order| - 1], entries[order[|order| - 1]], loads)]
  }

  function EmitAll(p: PendingCalls, loads: JsonLoads): (r: seq<EmittedCall>)
    requires WellFormed(p)
    ensures |r| == |p.order|
  {
    EmitKeys(p.order, p.entries, loads)
  }

  /** Two emitted calls that carry an id carry different ids: no call is emitted twice. */
  lemma EmittedOnce(p: PendingCalls, loads: JsonLoads, i: nat, j: nat)
    requires WellFormed(p) && i < j < |p.order|
    requires EmitAll(p, loads)[i].id.Some? && EmitAll(p, loads)[j].id.Some?
    ensures EmitAll(p, loads)[i].id != EmitAll(p, loads)[j].id
  {
  }

  function AsResponses(calls: seq<EmittedCall>): (r: seq<LlmResponse>)
    ensures |r| == |calls| && forall i :: 0 <= i < |calls| ==> r[i] == Call(calls[i])
  {
    seq(|calls|, i requires 0 <= i < |calls| => Call(calls[i]))
  }

  lemma AsResponsesAppend(calls: seq<EmittedCall>, call: EmittedCall)
    ensures AsResponses(calls + [call]) == AsResponses(calls) + [Call(call)]
  {
    var a, b := AsResponses(calls + [call]), AsResponses(calls) + [Call(call)];
    assert |a| == |b|;
    forall i | 0 <= i < |a| ensures a[i] == b[i] {
      if i < |calls| {
        assert (calls + [call])[i] == calls[i];
      }
    }
  }

  // ---- the stream ----

  predicate Finishes(c: Chunk)
  {
    c.choices != [] && (c.choices[0].finishReason == Some("tool_calls") || c.choices[0].finishReason == Some("function_call"))
  }

  /** A text delta is answered at once, when the delta carries no call. */
  function ChunkText(c: Chunk): seq<LlmResponse>
  {
    if c.choices == [] then []
    else
      var d := c.choices[0].delta;
      if d.toolCalls == [] && d.functionCall.None? && d.content.Some? then [Text(d.content.value)] else []
  }

  /** The calls pending after one chunk: its fragments gathered, or nothing after a tool-call finish. */
  function StepNext(p: PendingCalls, c: Chunk): (r: PendingCalls)
    requires WellFormed(p)
    ensures WellFormed(r)
  {
    if Finishes(c) then NoCalls else AddAll(p, FragmentsOf(c))
  }

  /** What one chunk yields: its text, then on a tool-call finish every pending call. */
  function StepOut(p: PendingCalls, c: Chunk, loads: JsonLoads): seq<LlmResponse>
    requires WellFormed(p)
  {
    if Finishes(c) then ChunkText(c) + AsResponses(EmitAll(AddAll(p, FragmentsOf(c)), loads)) else ChunkText(c)
  }

  /**
   * What the rest of the stream yields, given the calls gathered so far. Its
   * text responses are exactly the plain text deltas, in order, whatever
   * tool calls interleave with them.
   */
  function Stream(chunks: seq<Chunk>, p: PendingCalls, loads: JsonLoads): (r: seq<LlmResponse>)
    requires WellFormed(p)
    ensures Texts(r) == PlainContents(chunks)
    decreases |chunks|
  {
    if chunks == [] then []
    else
      var rest := Stream(chunks[1..], StepNext(p, chunks[0]), loads);
      StepOutTexts(p, chunks[0], loads);
      TextsConcat(StepOut(p, chunks[0], loads), rest);
      StepOut(p, chunks[0], loads) + rest
  }

  /** One chunk's output holds only that chunk's text, the emitted calls holding none. */
  lemma StepOutTexts(p: PendingCalls, c: Chunk, loads: JsonLoads)
    requires WellFormed(p)
    ensures Texts(StepOut(p, c, loads)) == Texts(ChunkText(c))
  {
    if Finishes(c) {
      CallResponses(EmitAll(AddAll(p, FragmentsOf(c)), loads));
      TextsConcat(ChunkText(c), AsResponses(EmitAll(AddAll(p, FragmentsOf(c)), loads)));
    }
  }

  function Texts(rs: seq<LlmResponse>): seq<string>
  {
    if rs == [] then [] else (if rs[0].Text? then [rs[0].content] else []) + Texts(rs[1..])
  }

  function Calls(rs: seq<LlmResponse>): seq<EmittedCall>
  {
    if rs == [] then [] else (if rs[0].Call? then [rs[0].call] else []) + Calls(rs[1..])
  }

  lemma {:induction false} TextsConcat(a: seq<LlmResponse>, b: seq<LlmResponse>)
    ensures Texts(a + b) == Texts(a) + Texts(b)
    ensures Calls(a + b) == Calls(a) + Calls(b)
  {
    if a != [] {
      assert (a + b)[0] == a[0] && (a + b)[1..] == a[1..] + b;
      TextsConcat(a[1..], b);
    } else {
      assert a + b == b;
    }
  }

  lemma {:induction false} CallResponses(calls: seq<EmittedCall>)
    ensures Texts(AsResponses(calls)) == [] && Calls(AsResponses(calls)) == calls
  {
    if calls != [] {
      assert AsResponses(calls)[1..] == AsResponses(calls[1..]);
      CallResponses(calls[1..]);
    }
  }

  /** The contents of the plain text deltas, in order. */
  function PlainContents(chunks: seq<Chunk>): seq<string>
  {
    if chunks == [] then [] else Texts(ChunkText(chunks[0])) + PlainContents(chunks[1..])
  }

  lemma ChunkTextNoCalls(c: Chunk)
    ensures Calls(ChunkText(c)) == []
  {
  }

  /** Calls still gathering when the stream ends without a tool-call finish are never emitted. */
  lemma {:induction false} NoFinishNoCalls(chunks: seq<Chunk>, p: PendingCalls, loads: JsonLoads)
    requires WellFormed(p)
    requires forall i :: 0 <= i < |chunks| ==> !Finishes(chunks[i])
    ensures Calls(Stream(chunks, p, loads)) == []
    decreases |chunks|
  {
    if chunks != [] {
      NoFinishNoCalls(chunks[1..], StepNext(p, chunks[0]), loads);
      ChunkTextNoCalls(chunks[0]);
      TextsConcat(StepOut(p, chunks[0], loads), Stream(chunks[1..], StepNext(p, chunks[0]), loads));
    }
  }

  function AllFragments(chunks: seq<Chunk>): seq<CallFragment>
  {
    if chunks == [] then [] else FragmentsOf(chunks[0]) + AllFragments(chunks[1..])
  }

  /**
   * When only the last chunk finishes with a tool call, the calls emitted are
   * exactly the calls gathered from every fragment of the stream.
   */
  lemma {:induction false} SingleFinishEmitsGathered(chunks: seq<Chunk>, p: PendingCalls, loads: JsonLoads)
    requires WellFormed(p) && chunks != []
    requires forall i :: 0 <= i < |chunks| - 1 ==> !Finishes(chunks[i])
    requires Finishes(chunks[|chunks| - 1])
    ensures Calls(Stream(chunks, p, loads)) == EmitAll(AddAll(p, AllFragments(chunks)), loads)
    decreases |chunks|
  {
    if |chunks| == 1 {
      LastChunkEmits(chunks, p, loads);
    } else {
      var c := chunks[0];
      var gathered := AddAll(p, FragmentsOf(c));
      SingleFinishEmitsGathered(chunks[1..], gathered, loads);
      EarlyChunkGathers(chunks, p, loads);
    }
  }

  /** A chunk that does not finish yields no call and passes its fragments on. */
  lemma {:induction false} EarlyChunkGathers(chunks: seq<Chunk>, p: PendingCalls, loads: JsonLoads)
    requires WellFormed(p) && |chunks| > 1 && !Finishes(chunks[0])
    requires Calls(Stream(chunks[1..], AddAll(p, FragmentsOf(chunks[0])), loads))
      == EmitAll(AddAll(AddAll(p, FragmentsOf(chunks[0])), AllFragments(chunks[1..])), loads)
    ensures Calls(Stream(chunks, p, loads)) == EmitAll(AddAll(p, AllFragments(chunks)), loads)
  {
    var c := chunks[0];
    var gathered := AddAll(p, FragmentsOf(c));
    var rest := Stream(chunks[1..], gathered, loads);
    StreamNoFinish(chunks, p, loads);
    CallsAfterText(c, rest);
    FragmentsCons(chunks);
    AddAllConcat(p, FragmentsOf(c), AllFragments(chunks[1..]));
  }

  /** A chunk without a tool-call finish yields only its text. */
  lemma StreamNoFinish(chunks: seq<Chunk>, p: PendingCalls, loads: JsonLoads)
    requires WellFormed(p) && chunks != [] && !Finishes(chunks[0])
    ensures Stream(chunks, p, loads) == ChunkText(chunks[0]) + Stream(chunks[1..], AddAll(p, FragmentsOf(chunks[0])), loads)
  {
  }

  lemma CallsAfterText(c: Chunk, rest: seq<LlmResponse>)
    ensures Calls(ChunkText(c) + rest) == Calls(rest)
  {
    TextsConcat(ChunkText(c), rest);
    ChunkTextNoCalls(c);
  }

  lemma FragmentsCons(chunks: seq<Chunk>)
    requires chunks != []
    ensures AllFragments(chunks) == FragmentsOf(chunks[0]) + AllFragments(chunks[1..])
  {
  }

  lemma SingleChunkFragments(chunks: seq<Chunk>)
    requires |chunks| == 1
    ensures AllFragments(chunks) == FragmentsOf(chunks[0])
  {
    assert chunks[1..] == [];
    assert AllFragments(chunks) == FragmentsOf(chunks[0]) + AllFragments(chunks[1..]);
  }

  /** The base case: a finishing chunk emits what it completes. */
  lemma {:induction false} LastChunkEmits(chunks: seq<Chunk>, p: PendingCalls, loads: JsonLoads)
    requires WellFormed(p) && |chunks| == 1 && Finishes(chunks[0])
    ensures Calls(Stream(chunks, p, loads)) == EmitAll(AddAll(p, AllFragments(chunks)), loads)
  {
    SingleChunkStream(chunks, p, loads);
    FinishCalls(p, chunks[0], loads);
    SingleChunkFragments(chunks);
  }

  lemma SingleChunkStream(chunks: seq<Chunk>, p: PendingCalls, loads: JsonLoads)
    requires WellFormed(p) && |chunks| == 1
    ensures Stream(chunks, p, loads) == StepOut(p, chunks[0], loads)
  {
    assert chunks[1..] == [];
    ConcatEmpty(StepOut(p, chunks[0], loads));
  }

  /** A finishing chunk yields as calls exactly what it completes. */
  lemma FinishCalls(p: PendingCalls, c: Chunk, loads: JsonLoads)
    requires WellFormed(p) && Finishes(c)
    ensures Calls(StepOut(p, c, loads)) == EmitAll(AddAll(p, FragmentsOf(c)), loads)
  {
    var emitted := EmitAll(AddAll(p, FragmentsOf(c)), loads);
    TextsConcat(ChunkText(c), AsResponses(emitted));
    ChunkTextNoCalls(c);
    CallResponses(emitted);
  }

  // ---- the plugin ----

  /** The fragments of a chunk, added one by one as the loop over delta.tool_calls does. */
  lemma ToolFragmentsStep(ds: seq<ToolCallDelta>, j: nat)
    requires j < |ds|
    ensures ToolFragments(ds[..j + 1]) == ToolFragments(ds[..j]) + [ToolFragment(ds[j])]
  {
  }

  lemma EmitKeysStep(order: seq<string>, entries: map<string, PendingCall>, loads: JsonLoads, j: nat)
    requires j < |order| && forall k :: k in order ==> k in entries
    ensures EmitKeys(order[..j + 1], entries, loads) == EmitKeys(order[..j], entries, loads) + [Emit(order[j], entries[order[j]], loads)]
  {
    assert order[..j + 1][..j] == order[..j];
  }

  /** One chunk of the stream, as the specification function unfolds it. */
  lemma StreamStep(chunks: seq<Chunk>, i: nat, p: PendingCalls, loads: JsonLoads)
    requires i < |chunks| && WellFormed(p)
    ensures Stream(chunks[i..], p, loads) == StepOut(p, chunks[i], loads) + Stream(chunks[i + 1..], StepNext(p, chunks[i]), loads)
  {
    assert chunks[i..][0] == chunks[i] && chunks[i..][1..] == chunks[i + 1..];
  }

  /** The emission loop's invariant carried over one key. */
  lemma EmitLoopStep(p: PendingCalls, loads: JsonLoads, j: nat)
    requires WellFormed(p) && j < |p.order|
    ensures AsResponses(EmitKeys(p.order[..j + 1], p.entries, loads))
      == AsResponses(EmitKeys(p.order[..j], p.entries, loads)) + [Call(Emit(p.order[j], p.entries[p.order[j]], loads))]
  {
    EmitKeysStep(p.order, p.entries, loads, j);
    AsResponsesAppend(EmitKeys(p.order[..j], p.entries, loads), Emit(p.order[j], p.entries[p.order[j]], loads));
  }

  lemma EmitLoopEnd(p: PendingCalls, loads: JsonLoads)
    requires WellFormed(p)
    ensures AsResponses(EmitKeys(p.order[..|p.order|], p.entries, loads)) == AsResponses(EmitAll(p, loads))
  {
    assert p.order[..|p.order|] == p.order;
  }

  /** The stream loop's invariant carried over one chunk. */
  lemma StreamLoopStep(chunks: seq<Chunk>, i: nat, p: PendingCalls, loads: JsonLoads, done: seq<LlmResponse>)
    requires i < |chunks| && WellFormed(p)
    ensures done + Stream(chunks[i..], p, loads)
      == (done + StepOut(p, chunks[i], loads)) + Stream(chunks[i + 1..], StepNext(p, chunks[i]), loads)
  {
    StreamStep(chunks, i, p, loads);
    ConcatAssoc(done, StepOut(p, chunks[i], loads), Stream(chunks[i + 1..], StepNext(p, chunks[i]), loads));
  }

  /** Past the last chunk nothing more is yielded. */
  lemma StreamEnd(chunks: seq<Chunk>, p: PendingCalls, loads: JsonLoads, done: seq<LlmResponse>)
    requires WellFormed(p)
    ensures done + Stream(chunks[|chunks|..], p, loads) == done
  {
    assert chunks[|chunks|..] == [];
    ConcatEmpty(done);
  }

  class Llm {
    const settings: Settings
    var cancelled: bool
    var closed: bool

    constructor(settings: Settings)
      requires settings.apiKey != ""
      ensures this.settings == settings && !cancelled && !closed
    {
      this.settings := settings;
      cancelled := false;
      closed := false;
    }

    /** The tools loop of chat: function tools whose schema could be built, in order. */
    method FormatTools(tools: seq<Tool>) returns (formatted: seq<Json>)
      ensures formatted == FormattedTools(tools)
    {
      formatted := [];
      for j := 0 to |tools|
        invariant formatted == FormattedTools(tools[..j])
      {
        assert tools[..j + 1] == tools[..j] + [tools[j]];
        FormattedToolsSnoc(tools[..j], tools[j]);
        if tools[j].isFunctionTool && tools[j].schema.Some? {
          formatted := formatted + [tools[j].schema.value];
        }
      }
      assert tools[..|tools|] == tools;
    }

    /** The gathering of one chunk's fragments into the pending calls. */
    method Gather(p: PendingCalls, c: Chunk) returns (r: PendingCalls)
      requires WellFormed(p) && c.choices != []
      ensures r == AddAll(p, FragmentsOf(c))
    {
      var delta := c.choices[0].delta;
      r := p;
      if delta.toolCalls != [] {
        for j := 0 to |delta.toolCalls|
          invariant r == AddAll(p, ToolFragments(delta.toolCalls[..j]))
        {
          ToolFragmentsStep(delta.toolCalls, j);
          r := AddFragment(r, ToolFragment(delta.toolCalls[j]));
        }
        assert delta.toolCalls[..|delta.toolCalls|] == delta.toolCalls;
      } else if delta.functionCall.Some? {
        r := AddFragment(r, LegacyFragment(delta.functionCall.value));
        assert [LegacyFragment(delta.functionCall.value)][..0] == [];
      }
    }

    /** The finish branch: every pending call, arguments parsed, in key order. */
    method EmitPending(p: PendingCalls, loads: JsonLoads) returns (out: seq<LlmResponse>)
      requires WellFormed(p)
      ensures out == AsResponses(EmitAll(p, loads))
    {
      out := [];
      for j := 0 to |p.order|
        invariant out == AsResponses(EmitKeys(p.order[..j], p.entries, loads))
      {
        EmitLoopStep(p, loads, j);
        out := out + [Call(Emit(p.order[j], p.entries[p.order[j]], loads))];
      }
      EmitLoopEnd(p, loads);
    }

    /** The body of the stream loop for one chunk: what it yields and the calls left pending. */
    method ChunkStep(pending: PendingCalls, chunk: Chunk, loads: JsonLoads) returns (out: seq<LlmResponse>, next: PendingCalls)
      requires WellFormed(pending)
      ensures out == StepOut(pending, chunk, loads) && next == StepNext(pending, chunk)
    {
      if chunk.choices == [] {
        return [], pending;
      }
      next := Gather(pending, chunk);
      out := ChunkText(chunk);
      if Finishes(chunk) {
        var emitted := EmitPending(next, loads);
        out := out + emitted;
        next := NoCalls;
      }
    }

    /** The stream loop of chat. */
    method RunStream(chunks: seq<Chunk>, loads: JsonLoads) returns (responses: seq<LlmResponse>)
      ensures responses == Stream(chunks, NoCalls, loads)
    {
      var pending := NoCalls;
      responses := [];
      assert chunks[0..] == chunks;
      for i := 0 to |chunks|
        invariant WellFormed(pending)
        invariant responses + Stream(chunks[i..], pending, loads) == Stream(chunks, NoCalls, loads)
      {
        var out, next := ChunkStep(pending, chunks[i], loads);
        StreamLoopStep(chunks, i, pending, loads, responses);
        responses := responses + out;
        pending := next;
      }
      StreamEnd(chunks, pending, loads, responses);
    }

    /**
     * chat: the request parameters, and the responses the stream yields.
     * The cancellation flag is cleared at the start.
     */
    method Chat(messages: seq<Json>, tools: seq<Tool>, kwargs: map<string, Param>, chunks: seq<Chunk>, loads: JsonLoads)
      returns (params: map<string, Param>, responses: seq<LlmResponse>)
      modifies this`cancelled
      ensures params == CompletionParams(settings, messages, FormattedTools(tools), kwargs)
      ensures responses == Stream(chunks, NoCalls, loads)
      ensures !cancelled
    {
      cancelled := false;
      var formatted := FormatTools(tools);
      params := CompletionParams(settings, messages, formatted, kwargs);
      responses := RunStream(chunks, loads);
    }

    method CancelCurrentGeneration()
      modifies this`cancelled
      ensures cancelled
    {
      cancelled := true;
    }

    /** aclose: cancels and closes the client. */
    method Aclose()
      modifies this`cancelled, this`closed
      ensures cancelled && closed
    {
      cancelled := true;
      closed := true;
    }
  }

  /** GroqLLM(...): the plugin, or the ValueError for a missing key. */
  method NewGroq(apiKey: Option<string>, envKey: Option<string>, args: LlmArgs) returns (r: Result<Llm, LlmError>)
    ensures r.Err? <==> Configure(apiKey, envKey, args).Err?
    ensures r.Err? ==> r.error == MissingGroqKey
    ensures r.Ok? ==> fresh(r.value) && r.value.settings == Configure(apiKey, envKey, args).value && !r.value.cancelled
  {
    match Configure(apiKey, envKey, args)
    case Err(e) =>
      return Err(e);
    case Ok(s) =>
      var llm := new Llm(s);
      return Ok(llm);
  }

  // ---- OpenAILLM ----

  predicate IsSlash(c: char) { c == '/' }

  /** The Groq base URL as OpenAILLM normalises it: the suffix test comes before the slashes are stripped. */
  function GroqUrlAsWritten(url: string): (r: string)
    ensures EndsWith(r, VersionSuffix)
    ensures EndsWith(url, VersionSuffix) ==> r == url
    ensures !EndsWith(url, VersionSuffix) ==>
      var bare := r[..|r| - |VersionSuffix|];
      |bare| <= |url| && bare == url[..|bare|] && forall i :: |bare| <= i < |url| ==> url[i] == '/'
  {
    if EndsWith(url, VersionSuffix) then url
    else
      var bare := TrimEnd(url, IsSlash);
      assert (bare + VersionSuffix)[..|bare|] == bare;
      bare + VersionSuffix
  }

  /** Trailing slashes stripped first, then `/v1` added when missing. */
  function GroqUrl(url: string): (r: string)
    ensures EndsWith(r, VersionSuffix)
    ensures r != [] && r[|r| - 1] != '/'
  {
    var bare := TrimEnd(url, IsSlash);
    if EndsWith(bare, VersionSuffix) then bare else bare + VersionSuffix
  }

  /** The default Groq URL written with a trailing slash. */
  const SlashedBaseUrl := DefaultBaseUrl + "/"

  /** As written, a trailing slash after `/v1` yields a doubled version segment. */
  lemma TrailingSlashDoubles()
    ensures GroqUrlAsWritten(SlashedBaseUrl) == DefaultBaseUrl + VersionSuffix
    ensures GroqUrl(SlashedBaseUrl) == DefaultBaseUrl
  {
    var s := SlashedBaseUrl;
    assert s[|s| - 1] == '/' && s[|s| - 2] == '1';
    assert !EndsWith(s, VersionSuffix);
    assert TrimEnd(s, IsSlash) == TrimEnd(DefaultBaseUrl, IsSlash) by {
      assert s[..|s| - 1] == DefaultBaseUrl;
    }
    TrimEndNoop(DefaultBaseUrl, IsSlash);
    assert EndsWith(DefaultBaseUrl, VersionSuffix) by {
      assert DefaultBaseUrl[|DefaultBaseUrl| - 3..] == VersionSuffix;
    }
  }

  /** Trailing slashes do not change the normalised URL. */
  lemma GroqUrlIgnoresTrailingSlash(url: string)
    ensures GroqUrl(url + "/") == GroqUrl(url)
  {
    assert (url + "/")[..|url|] == url;
  }

  /** A URL already ending in `/v1` is kept, and normalising twice changes nothing. */
  lemma GroqUrlCanonical(url: string)
    ensures EndsWith(url, VersionSuffix) ==> GroqUrl(url) == url
    ensures GroqUrl(GroqUrl(url)) == GroqUrl(url)
  {
    if EndsWith(url, VersionSuffix) {
      assert url[|url| - 1] == VersionSuffix[2];
      TrimEndNoop(url, IsSlash);
    }
    var r := GroqUrl(url);
    TrimEndNoop(r, IsSlash);
  }

  /** Without a trailing slash the normalisation as written and the intended one agree. */
  lemma GroqUrlAgrees(url: string)
    requires url == [] || url[|url| - 1] != '/'
    ensures GroqUrlAsWritten(url) == GroqUrl(url)
  {
    TrimEndNoop(url, IsSlash);
  }

  predicate IsGroqUrl(baseUrl: Option<string>)
  {
    baseUrl.Some? && Contains(baseUrl.value, GroqHost)
  }

  /**
   * OpenAILLM.__init__'s choice of key and URL: a Groq URL takes the
   * GROQ_API_KEY fallback and the URL normalised as written; anything else takes the
   * OPENAI_API_KEY fallback and the OpenAI URL when none is given.
   */
  function OpenAiEndpoint(apiKey: Option<string>, baseUrl: Option<string>, groqEnv: Option<string>, openAiEnv: Option<string>)
    : (r: Result<(string, string), LlmError>)
    ensures IsGroqUrl(baseUrl) ==> (r.Err? <==> CvEstimator.ApiKey(apiKey, groqEnv).None?)
    ensures IsGroqUrl(baseUrl) && r.Err? ==> r.error == MissingGroqKey
    ensures IsGroqUrl(baseUrl) && r.Ok? ==> r.value.1 == GroqUrlAsWritten(baseUrl.value) && EndsWith(r.value.1, VersionSuffix)
    ensures !IsGroqUrl(baseUrl) ==> (r.Err? <==> CvEstimator.ApiKey(apiKey, openAiEnv).None?)
    ensures !IsGroqUrl(baseUrl) && r.Err? ==> r.error == MissingOpenAiKey
    ensures !IsGroqUrl(baseUrl) && r.Ok? ==>
      r.value.1 == (if baseUrl.None? || baseUrl.value == "" then OpenAiBaseUrl else baseUrl.value)
    ensures r.Ok? ==> r.value.0 != ""
  {
    if IsGroqUrl(baseUrl) then
      match CvEstimator.ApiKey(apiKey, groqEnv)
      case None => Err(MissingGroqKey)
      case Some(key) => Ok((key, GroqUrlAsWritten(baseUrl.value)))
    else
      match CvEstimator.ApiKey(apiKey, openAiEnv)
      case None => Err(MissingOpenAiKey)
      case Some(key) => Ok((key, if baseUrl.None? || baseUrl.value == "" then OpenAiBaseUrl else baseUrl.value))
  }

  /** The default Groq URL written with a trailing slash reaches the client with `/v1` twice. */
  lemma SlashedGroqEndpointDoubles(key: string)
    requires key != ""
    ensures OpenAiEndpoint(Some(key), Some(SlashedBaseUrl), None, None) == Ok((key, DefaultBaseUrl + VersionSuffix))
  {
    assert SlashedBaseUrl == "https://api." + GroqHost + "/openai/v1/";
    ContainsInMiddle("https://api.", GroqHost, "/openai/v1/");
    TrailingSlashDoubles();
  }

  /** OpenAILLM(...): the endpoint choice, then GroqLLM's own construction with that key and URL. */
  method NewOpenAi(apiKey: Option<string>, baseUrl: Option<string>, groqEnv: Option<string>, openAiEnv: Option<string>,
                   args: LlmArgs) returns (r: Result<Llm, LlmError>)
    ensures r.Err? <==> OpenAiEndpoint(apiKey, baseUrl, groqEnv, openAiEnv).Err?
    ensures r.Err? ==> r.error == OpenAiEndpoint(apiKey, baseUrl, groqEnv, openAiEnv).error
    ensures r.Ok? ==> (fresh(r.value) && !r.value.cancelled
      && r.value.settings.apiKey == OpenAiEndpoint(apiKey, baseUrl, groqEnv, openAiEnv).value.0
      && r.value.settings.baseUrl == OpenAiEndpoint(apiKey, baseUrl, groqEnv, openAiEnv).value.1)
  {
    match OpenAiEndpoint(apiKey, baseUrl, groqEnv, openAiEnv)
    case Err(e) =>
      return Err(e);
    case Ok(endpoint) =>
      var s := Configure(Some(endpoint.0), groqEnv, args.(baseUrl := endpoint.1));
      var llm := new Llm(s.value);
      return Ok(llm);
  }
}
