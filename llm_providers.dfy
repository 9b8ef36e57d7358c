/**
 * The LLM providers (`llm_providers.py`): three SDK-backed providers that are usable
 * only when their client could be created, and the factory that picks one from the
 * environment. The environment variables and whether an SDK client can be created
 * for a key are inputs; the SDK calls themselves are not modelled.
 */
module LlmProviders {
  import opened Wrappers
  import opened Text

  datatype ProviderKind = Gemini | Anthropic | OpenAI

  /** The order the factory falls back through. */
  const FallbackOrder: seq<ProviderKind> := [Gemini, Anthropic, OpenAI]

  /** The process environment, and whether each SDK accepts a key (import and client construction succeed). */
  datatype Environment = Environment(vars: map<string, string>, clientInit: (ProviderKind, string) -> bool)

  /** `os.getenv(name)`. */
  function Getenv(env: Environment, name: string): Option<string>
  {
    if name in env.vars then Some(env.vars[name]) else None
  }

  /** The environment variable each provider reads its key from. */
  function KeyVariable(kind: ProviderKind): string
  {
    match kind
    case Gemini => "GEMINI_API_KEY"
    case Anthropic => "ANTHROPIC_API_KEY"
    case OpenAI => "OPENAI_API_KEY"
  }

  /** The model each provider uses unless told otherwise; Gemini's is fixed. */
  function DefaultModel(kind: ProviderKind): string
  {
    match kind
    case Gemini => "gemini-2.5-flash"
    case Anthropic => "claude-sonnet-4-20250514"
    case OpenAI => "gpt-4o-mini"
  }

  /** The `LLM_PROVIDER` value that selects each provider. */
  function Selector(kind: ProviderKind): string
  {
    match kind
    case Gemini => "gemini"
    case Anthropic => "anthropic"
    case OpenAI => "openai"
  }

  /** A constructed provider: its model, the key it settled on and whether its client exists. */
  datatype Provider = Provider(kind: ProviderKind, model: string, apiKey: Option<string>, clientReady: bool)

  /** Python's truthiness of an optional string. */
  predicate Truthy(s: Option<string>)
  {
    s.Some? && s.value != ""
  }

  /**
   * A provider's `__init__(api_key, model)`: the key is the argument when it is truthy, else the environment
   * variable; the client is created only for a truthy key the SDK accepts.
   */
  function NewProvider(kind: ProviderKind, apiKey: Option<string>, model: string, env: Environment): (p: Provider)
    ensures p.kind == kind
    ensures p.model == if kind == Gemini then DefaultModel(Gemini) else model
    ensures p.apiKey == if Truthy(apiKey) then apiKey else Getenv(env, KeyVariable(kind))
    ensures p.clientReady <==> Truthy(p.apiKey) && env.clientInit(kind, p.apiKey.value)
  {
    var key := if Truthy(apiKey) then apiKey else Getenv(env, KeyVariable(kind));
    Provider(kind, if kind == Gemini then DefaultModel(Gemini) else model, key,
             Truthy(key) && env.clientInit(kind, key.value))
  }

  /** `ProviderClass()`: no key argument and the default model, as the factory constructs them. */
  function DefaultProvider(kind: ProviderKind, env: Environment): (p: Provider)
    ensures p.kind == kind && p.model == DefaultModel(kind)
    ensures p.clientReady ==> Truthy(Getenv(env, KeyVariable(kind)))
  {
    NewProvider(kind, None, DefaultModel(kind), env)
  }

  /** `is_available()`: the client was created. */
  predicate IsAvailable(p: Provider)
  {
    p.clientReady
  }

  /** `get_name()`. */
  function GetName(p: Provider): (n: string)
    ensures p.kind == Gemini ==> n == "Google Gemini 2.5 Flash"
    ensures p.kind == Anthropic ==> n == "Anthropic " + p.model
    ensures p.kind == OpenAI ==> n == "OpenAI " + p.model
  {
    match p.kind
    case Gemini => "Google Gemini 2.5 Flash"
    case Anthropic => "Anthropic " + p.model
    case OpenAI => "OpenAI " + p.model
  }

  /** Providers of different kinds never share a name. */
  lemma NamesTellKindsApart(p: Provider, q: Provider)
    requires p.kind != q.kind
    ensures GetName(p) != GetName(q)
  {
    assert GetName(p)[0] != GetName(q)[0];
  }

  /**
   * `analyze(prompt, ...)`: raises "<Provider> client not initialized" without a client; otherwise returns the
   * SDK's answer, given here as `answer` (the text of what the SDK raised, or its reply).
   */
  function Analyze(p: Provider, answer: Result<string, string>): (r: Result<string, string>)
    ensures !IsAvailable(p) ==> r.Err?
    ensures IsAvailable(p) ==> r == answer
    ensures p.kind == Gemini && !IsAvailable(p) ==> r == Err("Gemini client not initialized")
    ensures p.kind == Anthropic && !IsAvailable(p) ==> r == Err("Anthropic client not initialized")
    ensures p.kind == OpenAI && !IsAvailable(p) ==> r == Err("OpenAI client not initialized")
  {
    if !p.clientReady then
      match p.kind
      case Gemini => Err("Gemini client not initialized")
      case Anthropic => Err("Anthropic client not initialized")
      case OpenAI => Err("OpenAI client not initialized")
    else answer
  }

  /** `os.getenv("LLM_PROVIDER", "gemini").lower()`. */
  function RequestedName(env: Environment): string
  {
    LowerAscii(OrElse(Getenv(env, "LLM_PROVIDER"), "gemini"))
  }

  /** The provider kind a lower-cased selector names, if any. */
  function KindNamed(name: string): (r: Option<ProviderKind>)
    ensures r.Some? <==> name in {"gemini", "anthropic", "openai"}
    ensures r.Some? ==> Selector(r.value) == name
  {
    if name == "gemini" then Some(Gemini)
    else if name == "anthropic" then Some(Anthropic)
    else if name == "openai" then Some(OpenAI)
    else None
  }

  /** The position of the first kind in `order` for which `usable` holds. */
  function FirstAvailable(order: seq<ProviderKind>, usable: ProviderKind -> bool): (r: Option<nat>)
    ensures r.Some? ==> r.value < |order| && usable(order[r.value])
    ensures r.Some? ==> forall j :: 0 <= j < r.value ==> !usable(order[j])
    ensures r.None? <==> forall i :: 0 <= i < |order| ==> !usable(order[i])
  {
    if order == [] then None
    else if usable(order[0]) then Some(0)
    else
      var rest := order[1..];
      assert forall i :: 0 < i < |order| ==> order[i] == rest[i - 1];
      match FirstAvailable(rest, usable)
      case None => None
      case Some(i) => Some(i + 1)
  }

  /** Whether the factory's `ProviderClass()` of this kind would be available. */
  function Usable(env: Environment): ProviderKind -> bool
  {
    k => IsAvailable(DefaultProvider(k, env))
  }

  /** The kind the factory settles on: the requested one when available, else the first available in fallback order. */
  function Choice(env: Environment): Option<ProviderKind>
  {
    var requested := KindNamed(RequestedName(env));
    if requested.Some? && IsAvailable(DefaultProvider(requested.value, env)) then requested
    else
      match FirstAvailable(FallbackOrder, Usable(env))
      case None => None
      case Some(i) => Some(FallbackOrder[i])
  }

  /** The factory only returns an available provider, and returns none only when no provider is available. */
  lemma ChoiceIsAvailable(env: Environment)
    ensures Choice(env).Some? ==> IsAvailable(DefaultProvider(Choice(env).value, env))
    ensures Choice(env).None? <==> forall k: ProviderKind :: !IsAvailable(DefaultProvider(k, env))
  {
    if FirstAvailable(FallbackOrder, Usable(env)).None? {
      forall k: ProviderKind ensures !IsAvailable(DefaultProvider(k, env)) {
        var i := if k == Gemini then 0 else if k == Anthropic then 1 else 2;
        assert FallbackOrder[i] == k;
      }
    }
  }

  /** A requested provider that is available always wins over the fallback order. */
  lemma RequestedWins(env: Environment, kind: ProviderKind)
    requires RequestedName(env) == Selector(kind)
    requires IsAvailable(DefaultProvider(kind, env))
    ensures Choice(env) == Some(kind)
  {
  }

  /** When the requested provider is unavailable, Gemini is preferred whenever it is available. */
  lemma FallbackPrefersGemini(env: Environment)
    requires KindNamed(RequestedName(env)) != Some(Gemini)
    requires IsAvailable(DefaultProvider(Gemini, env))
    requires KindNamed(RequestedName(env)).None? || !IsAvailable(DefaultProvider(KindNamed(RequestedName(env)).value, env))
    ensures Choice(env) == Some(Gemini)
  {
  }

  /** A usable kind with no usable kind before it is the one `FirstAvailable` finds. */
  lemma {:induction false} FirstAvailableIsFirst(order: seq<ProviderKind>, usable: ProviderKind -> bool, i: nat)
    requires i < |order| && usable(order[i])
    requires forall j :: 0 <= j < i ==> !usable(order[j])
    ensures FirstAvailable(order, usable) == Some(i)
  {
    if i > 0 {
      var rest := order[1..];
      assert !usable(order[0]);
      assert rest[i - 1] == order[i];
      forall j | 0 <= j < i - 1 ensures !usable(rest[j]) {
        assert rest[j] == order[j + 1];
      }
      FirstAvailableIsFirst(rest, usable, i - 1);
    }
  }

  /**
   * `LLMProviderFactory.create_provider()`: the requested provider when it is available, else the first
   * available of Gemini, Anthropic and OpenAI, else `None`.
   */
  method CreateProvider(env: Environment) returns (r: Option<Provider>)
    ensures r == if Choice(env).Some? then Some(DefaultProvider(Choice(env).value, env)) else None
  {
    var providerType := RequestedName(env);
    var requested := KindNamed(providerType);
    if requested.Some? {
      var provider := DefaultProvider(requested.value, env);
      if IsAvailable(provider) {
        return Some(provider);
      }
    }
    var i := 0;
    while i < |FallbackOrder|
      invariant i <= |FallbackOrder|
      invariant forall j :: 0 <= j < i ==> !IsAvailable(DefaultProvider(FallbackOrder[j], env))
    {
      var provider := DefaultProvider(FallbackOrder[i], env);
      if IsAvailable(provider) {
        FirstAvailableIsFirst(FallbackOrder, Usable(env), i);
        return Some(provider);
      }
      i := i + 1;
    }
    return None;
  }

  /** Without `LLM_PROVIDER`, and with any capitalisation of "gemini", Gemini is asked for first. */
  lemma GeminiIsTheDefault(env: Environment)
    requires Getenv(env, "LLM_PROVIDER").None? || LowerAscii(Getenv(env, "LLM_PROVIDER").value) == "gemini"
    ensures KindNamed(RequestedName(env)) == Some(Gemini)
  {
  }

  /** Any capitalisation of a provider's selector asks for that provider. */
  lemma SelectorIgnoresCase(env: Environment, k: ProviderKind)
    requires Getenv(env, "LLM_PROVIDER").Some?
    requires LowerAscii(Getenv(env, "LLM_PROVIDER").value) == Selector(k)
    ensures KindNamed(RequestedName(env)) == Some(k)
  {
  }
}
