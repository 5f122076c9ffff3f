/** Resolution of a provider's configuration (`get_provider` in main.py): the
    fixed provider table, explicit arguments before environment variables, and
    the two configuration errors. The process environment is a map parameter. */
module Providers {
  import opened Wrappers

  datatype ProviderKind = OpenAI | Anthropic | Gemini

  /** One row of the provider table: the kind of client to build, the variable
      holding its API key and, when the SDK accepts one, the variable holding
      its base URL. */
  datatype ProviderEntry = ProviderEntry(kind: ProviderKind, keyEnv: string, urlEnv: Option<string>)

  /** What a provider client is constructed with. */
  datatype ProviderConfig = ProviderConfig(kind: ProviderKind, apiKey: string, baseUrl: Option<string>)

  datatype ConfigError =
    | UnknownProvider(name: string)
    | MissingApiKey(name: string, keyEnv: string)

  type Env = map<string, string>

  const KnownNames: set<string> := {"openai", "anthropic", "gemini"}

  function ProviderTable(): map<string, ProviderEntry> {
    map[
      "openai" := ProviderEntry(OpenAI, "OPENAI_API_KEY", Some("OPENAI_BASE_URL")),
      "anthropic" := ProviderEntry(Anthropic, "ANTHROPIC_API_KEY", Some("ANTHROPIC_BASE_URL")),
      "gemini" := ProviderEntry(Gemini, "GEMINI_API_KEY", None)
    ]
  }

  /** `os.getenv(name)`: `None` when the variable is unset. */
  function Getenv(env: Env, name: string): (r: Option<string>)
    ensures r.Some? <==> name in env
    ensures r.Some? ==> r.value == env[name]
  {
    if name in env then Some(env[name]) else None
  }

  /** Looking a name up in the provider table. */
  function Lookup(name: string): (r: Option<ProviderEntry>)
    ensures r.Some? <==> name in KnownNames
    ensures name == "openai" ==> r == Some(ProviderEntry(OpenAI, "OPENAI_API_KEY", Some("OPENAI_BASE_URL")))
    ensures name == "anthropic" ==> r == Some(ProviderEntry(Anthropic, "ANTHROPIC_API_KEY", Some("ANTHROPIC_BASE_URL")))
    ensures name == "gemini" ==> r == Some(ProviderEntry(Gemini, "GEMINI_API_KEY", None))
  {
    var table := ProviderTable();
    assert table.Keys == KnownNames;
    if name in table then Some(table[name]) else None
  }

  /** The key the provider ends up with: the explicit one, else the environment's. */
  function ResolvedKey(e: ProviderEntry, apiKey: Option<string>, env: Env): Option<string> {
    Or(apiKey, Getenv(env, e.keyEnv))
  }

  /** The base URL the provider ends up with: the explicit one, else the
      environment's when the provider has a URL variable, else none. */
  function ResolvedUrl(e: ProviderEntry, baseUrl: Option<string>, env: Env): Option<string> {
    Or(baseUrl, if e.urlEnv.Some? then Getenv(env, e.urlEnv.value) else None)
  }

  function GetProvider(name: string, apiKey: Option<string>, baseUrl: Option<string>, env: Env)
    : (r: Result<ProviderConfig, ConfigError>)
    // an unknown name fails, and it is the only way to get that error
    ensures r == Err(UnknownProvider(name)) <==> name !in KnownNames
    ensures name in KnownNames ==> r.Ok? || r.error.MissingApiKey?
    // a known name succeeds exactly when an explicit or environment key is non-empty
    ensures name in KnownNames ==>
      var e := Lookup(name).value;
      (r.Ok? <==> Truthy(apiKey) || Truthy(Getenv(env, e.keyEnv)))
    ensures r.Err? && r.error.MissingApiKey? ==>
      name in KnownNames && r.error == MissingApiKey(name, Lookup(name).value.keyEnv)
    // the configuration: the table's kind, a non-empty key taken from the explicit
    // argument first, and the base URL taken the same way
    ensures r.Ok? ==>
      var e := Lookup(name).value;
      && name in KnownNames
      && r.value.kind == e.kind
      && r.value.apiKey != ""
      && (Truthy(apiKey) ==> r.value.apiKey == apiKey.value)
      && (!Truthy(apiKey) ==> e.keyEnv in env && r.value.apiKey == env[e.keyEnv])
      && (Truthy(baseUrl) ==> r.value.baseUrl == baseUrl)
      && (!Truthy(baseUrl) && e.urlEnv.Some? ==> r.value.baseUrl == Getenv(env, e.urlEnv.value))
      && (!Truthy(baseUrl) && e.urlEnv.None? ==> r.value.baseUrl == None)
  {
    match Lookup(name)
    case None => Err(UnknownProvider(name))
    case Some(e) =>
      var key := ResolvedKey(e, apiKey, env);
      var url := ResolvedUrl(e, baseUrl, env);
      if !Truthy(key) then Err(MissingApiKey(name, e.keyEnv))
      else Ok(ProviderConfig(e.kind, key.value, url))
  }

  /** The text of a configuration error, as `ValueError` carries it. */
  function ErrorMessage(err: ConfigError): (msg: string)
    ensures err.UnknownProvider? ==> msg == "Unknown provider: " + err.name
    ensures err.MissingApiKey? ==>
      var prefix := "API key not provided for " + err.name + ". Set ";
      && |msg| > |prefix| + |err.keyEnv|
      && msg[..|prefix|] == prefix
      && msg[|prefix|..|prefix| + |err.keyEnv|] == err.keyEnv
      && msg[|prefix| + |err.keyEnv|..] == " in .env or use --api-key"
  {
    match err
    case UnknownProvider(n) => "Unknown provider: " + n
    case MissingApiKey(n, k) => "API key not provided for " + n + ". Set " + k + " in .env or use --api-key"
  }

  /** Gemini has no base-URL variable: the environment's URL variables never
      affect it, whatever they hold. */
  lemma GeminiIgnoresUrlEnv(apiKey: Option<string>, baseUrl: Option<string>, env1: Env, env2: Env)
    requires Getenv(env1, "GEMINI_API_KEY") == Getenv(env2, "GEMINI_API_KEY")
    ensures GetProvider("gemini", apiKey, baseUrl, env1) == GetProvider("gemini", apiKey, baseUrl, env2)
    ensures GetProvider("gemini", apiKey, baseUrl, env1).Ok? ==>
      GetProvider("gemini", apiKey, baseUrl, env1).value.baseUrl == (if Truthy(baseUrl) then baseUrl else None)
  { }

  /** Explicit non-empty arguments take precedence: the environment is then not
      consulted at all. */
  lemma ExplicitArgumentsWin(name: string, apiKey: string, baseUrl: string, env1: Env, env2: Env)
    requires name in KnownNames && apiKey != "" && baseUrl != ""
    ensures GetProvider(name, Some(apiKey), Some(baseUrl), env1)
         == GetProvider(name, Some(apiKey), Some(baseUrl), env2)
         == Ok(ProviderConfig(Lookup(name).value.kind, apiKey, Some(baseUrl)))
  { }

  /** An empty explicit argument behaves exactly like an absent one, for each
      argument on its own, whatever the other argument is. */
  lemma EmptyIsAbsent(name: string, apiKey: Option<string>, baseUrl: Option<string>, env: Env)
    ensures GetProvider(name, Some(""), baseUrl, env) == GetProvider(name, None, baseUrl, env)
    ensures GetProvider(name, apiKey, Some(""), env) == GetProvider(name, apiKey, None, env)
  { }

  /** Without arguments, resolution reads only the provider's own variables. */
  lemma OnlyOwnVariablesRead(name: string, env1: Env, env2: Env)
    requires name in KnownNames
    requires Getenv(env1, Lookup(name).value.keyEnv) == Getenv(env2, Lookup(name).value.keyEnv)
    requires Lookup(name).value.urlEnv.Some? ==>
      Getenv(env1, Lookup(name).value.urlEnv.value) == Getenv(env2, Lookup(name).value.urlEnv.value)
    ensures GetProvider(name, None, None, env1) == GetProvider(name, None, None, env2)
  { }
}
