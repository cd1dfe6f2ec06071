/** Construction of the embedding/chat client from a provider name and the
    environment's API keys (`makeClient` in both variants), and the choice of
    embedding profile that follows from it. */
module Providers {
  import opened Outcomes
  import opened Text

  /** The environment: variable name to value. */
  type Env = map<string, string>

  /** OpenAI-compatible endpoints reached through the OpenAI SDK. */
  datatype Endpoint = OpenAIDefault | OpenRouter | DeepSeek

  datatype Client =
    | OpenAIClient(apiKey: string, endpoint: Endpoint)
    | GoogleClient(apiKey: string)

  datatype ConfigError = MissingKey(variable: string) | UnknownProvider

  /** The `baseURL` handed to the OpenAI SDK; `None` keeps the SDK default. */
  function BaseUrl(e: Endpoint): Option<string> {
    match e
    case OpenAIDefault => None
    case OpenRouter => Some("https://api.openrouter.ai/v1")
    case DeepSeek => Some("https://api.deepseek.com")
  }

  /** `if (!key)` rejects both an unset and an empty variable. */
  predicate HasKey(env: Env, variable: string) {
    variable in env && env[variable] != ""
  }

  /** Provider names known to the backend, in lower case. */
  predicate BackendProvider(name: string) {
    name == "openai" || name == "openrouter" || name == "deepseek" || name == "google"
  }

  /** Provider names known to the command-line assistant, in lower case. */
  predicate AssistantProvider(name: string) {
    name == "openai" || name == "deepseek"
  }

  /** The environment variable holding a provider's key. */
  function KeyVariable(name: string): string {
    if name == "openai" then "OPENAI_API_KEY"
    else if name == "openrouter" then "OPENROUTER_API_KEY"
    else if name == "deepseek" then "DEEPSEEK_API_KEY"
    else "GOOGLE_API_KEY"
  }

  /** The client built for a known lower-case provider name once its key is found. */
  function ClientFor(name: string, key: string): Client {
    if name == "openai" then OpenAIClient(key, OpenAIDefault)
    else if name == "openrouter" then OpenAIClient(key, OpenRouter)
    else if name == "deepseek" then OpenAIClient(key, DeepSeek)
    else GoogleClient(key)
  }

  /** Backend `makeClient(provider)`. */
  function MakeClient(provider: string, env: Env): (r: Result<Client, ConfigError>)
    ensures !BackendProvider(Lower(provider)) ==> r == Err(UnknownProvider)
    ensures BackendProvider(Lower(provider)) && !HasKey(env, KeyVariable(Lower(provider))) ==>
      r == Err(MissingKey(KeyVariable(Lower(provider))))
    ensures r.Ok? <==> BackendProvider(Lower(provider)) && HasKey(env, KeyVariable(Lower(provider)))
    ensures r.Ok? ==> r.value.apiKey == env[KeyVariable(Lower(provider))]
    ensures r.Ok? ==> (r.value.GoogleClient? <==> Lower(provider) == "google")
  {
    var name := Lower(provider);
    if !BackendProvider(name) then Err(UnknownProvider)
    else if !HasKey(env, KeyVariable(name)) then Err(MissingKey(KeyVariable(name)))
    else Ok(ClientFor(name, env[KeyVariable(name)]))
  }

  /** Command-line assistant `makeClient(provider)`: OpenAI or DeepSeek only. */
  function MakeAssistantClient(provider: string, env: Env): (r: Result<Client, ConfigError>)
    ensures !AssistantProvider(Lower(provider)) ==> r == Err(UnknownProvider)
    ensures r.Ok? <==> AssistantProvider(Lower(provider)) && HasKey(env, KeyVariable(Lower(provider)))
    ensures r.Ok? ==> r.value.OpenAIClient? && r.value.apiKey == env[KeyVariable(Lower(provider))]
  {
    var name := Lower(provider);
    if !AssistantProvider(name) then Err(UnknownProvider)
    else if !HasKey(env, KeyVariable(name)) then Err(MissingKey(KeyVariable(name)))
    else Ok(ClientFor(name, env[KeyVariable(name)]))
  }

  /** The provider name is compared case-insensitively: a name and its
      lower-case form configure the same client. */
  lemma MakeClientIgnoresCase(provider: string, env: Env)
    ensures MakeClient(provider, env) == MakeClient(Lower(provider), env)
    ensures MakeAssistantClient(provider, env) == MakeAssistantClient(Lower(provider), env)
  {
    LowerIdempotent(provider);
  }

  /** Every configuration the assistant accepts, the backend accepts too and
      builds the same client from it. */
  lemma AssistantClientsAreBackendClients(provider: string, env: Env)
    ensures MakeAssistantClient(provider, env).Ok? ==>
      MakeClient(provider, env) == MakeAssistantClient(provider, env)
  {
  }

  /** The two ways of embedding a list of texts. */
  datatype Profile =
    | Sequential  // one `embedContent` call per text, Google Generative AI
    | Batched     // one `embeddings.create` call per batch, OpenAI SDK

  /** Only a client of the matching SDK has the method a profile calls:
      `getGenerativeModel` for `Sequential`, `embeddings.create` for `Batched`. */
  predicate Supports(c: Client, p: Profile) {
    c.GoogleClient? <==> p == Sequential
  }

  /** The profile as the source chooses it: `provider === 'google'`, compared
      case-sensitively with the raw provider name. */
  function ProfileAsWritten(provider: string): Profile {
    if provider == "google" then Sequential else Batched
  }

  /** The profile chosen from the client that was actually built. */
  function ProfileFor(c: Client): (p: Profile)
    ensures Supports(c, p)
  {
    if c.GoogleClient? then Sequential else Batched
  }

  /** As written, the name "Google" builds a Google client yet selects the
      batched profile, whose `embeddings.create` a Google client does not have. */
  lemma MixedCaseGoogleMisrouted()
    ensures var env := map["GOOGLE_API_KEY" := "k"];
      && MakeClient("Google", env) == Ok(GoogleClient("k"))
      && ProfileAsWritten("Google") == Batched
      && !Supports(GoogleClient("k"), ProfileAsWritten("Google"))
  {
    var env := map["GOOGLE_API_KEY" := "k"];
    assert Lower("Google") == "google";
  }

  /** The corrected choice agrees with the source on every name already in
      lower case, and always fits the client. */
  lemma ProfileForAgreesOnLowerCaseNames(provider: string, env: Env)
    requires provider == Lower(provider)
    requires MakeClient(provider, env).Ok?
    ensures ProfileFor(MakeClient(provider, env).value) == ProfileAsWritten(provider)
    ensures Supports(MakeClient(provider, env).value, ProfileFor(MakeClient(provider, env).value))
  {
  }
}
