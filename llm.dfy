/**
 * The text-generation client of `src/llm.py`: which provider is chosen from
 * the installed SDKs and the environment, what `generate_text` returns for
 * each provider's reply (with its deterministic fallback report), and the
 * process-wide client created once by `get_llm`. The providers' network calls
 * are inputs: their reply is given, not computed.
 */
module Llm {
  import opened Wrappers
  import opened PyStr

  datatype Provider = OpenAI | Gemini | Ollama | Fallback

  /** What `LLMClient.__init__` can observe: importable SDKs and the environment variables. */
  datatype LlmEnv = LlmEnv(
    openaiInstalled: bool,
    openaiHasClientClass: bool,   // `hasattr(openai, "OpenAI")`: the current SDK rather than the legacy module
    genaiInstalled: bool,
    requestsInstalled: bool,
    vars: map<string, string>)

  /** `os.getenv(name, default)`. */
  function GetEnv(env: LlmEnv, name: string, default: string): string {
    if name in env.vars then env.vars[name] else default
  }

  /** `os.getenv(name)` is truthy: set and not empty. */
  predicate EnvSet(env: LlmEnv, name: string) {
    name in env.vars && env.vars[name] != ""
  }

  /** The priority of a provider: lower is tried first. */
  function Rank(p: Provider): nat {
    match p
    case OpenAI => 0
    case Gemini => 1
    case Ollama => 2
    case Fallback => 3
  }

  /** A provider can be chosen: its SDK is importable and its variable is set (the fallback always can). */
  predicate Usable(env: LlmEnv, p: Provider) {
    match p
    case OpenAI => env.openaiInstalled && EnvSet(env, "OPENAI_API_KEY")
    case Gemini => env.genaiInstalled && EnvSet(env, "GEMINI_API_KEY")
    case Ollama => env.requestsInstalled && EnvSet(env, "OLLAMA_MODEL")
    case Fallback => true
  }

  /** The provider `LLMClient.__init__` picks: the usable one of highest priority. */
  function SelectProvider(env: LlmEnv): (p: Provider)
    ensures Usable(env, p)
    ensures forall q :: Usable(env, q) ==> Rank(p) <= Rank(q)
  {
    if Usable(env, OpenAI) then OpenAI
    else if Usable(env, Gemini) then Gemini
    else if Usable(env, Ollama) then Ollama
    else Fallback
  }

  /** The SDK object stored in `_client`. */
  datatype ClientHandle = OpenAIClient | OpenAIModule | GeminiModel(name: string) | NoClient

  class LLMClient {
    var provider: Provider
    var model: string
    var client: ClientHandle

    /** `LLMClient.__init__`: the cascade over openai, gemini, ollama and the fallback. */
    constructor (env: LlmEnv)
      ensures provider == SelectProvider(env)
      ensures provider == OpenAI ==>
        model == GetEnv(env, "OPENAI_MODEL", "gpt-4o-mini") &&
        client == (if env.openaiHasClientClass then OpenAIClient else OpenAIModule)
      ensures provider == Gemini ==>
        model == GetEnv(env, "GEMINI_MODEL", "gemini-1.5-flash") && client == GeminiModel(model)
      ensures provider == Ollama ==> model == env.vars["OLLAMA_MODEL"] && client == NoClient
      ensures provider == Fallback ==> model == "fallback" && client == NoClient
    {
      if env.openaiInstalled && EnvSet(env, "OPENAI_API_KEY") {
        provider := OpenAI;
        model := GetEnv(env, "OPENAI_MODEL", "gpt-4o-mini");
        if env.openaiHasClientClass {
          client := OpenAIClient;
        } else {
          client := OpenAIModule;
        }
      } else if env.genaiInstalled && EnvSet(env, "GEMINI_API_KEY") {
        provider := Gemini;
        model := GetEnv(env, "GEMINI_MODEL", "gemini-1.5-flash");
        client := GeminiModel(model);
      } else if env.requestsInstalled && EnvSet(env, "OLLAMA_MODEL") {
        provider := Ollama;
        model := env.vars["OLLAMA_MODEL"];
        client := NoClient;
      } else {
        provider := Fallback;
        model := "fallback";
        client := NoClient;
      }
    }
  }

  /**
   * What the chosen provider's call gave back: it raised, Ollama answered with
   * a non-ok status, or a reply whose text field (`message.content`,
   * `resp.text`, or the `response` key) may be `None`.
   */
  datatype ProviderReply = Raised | NotOk | Content(text: Option<string>)

  const FallbackPrefix: string := "[FALLBACK REPORT]\n"
  const FallbackTrailer: string := "\n-- End of fallback. Provide API keys for better results."
  const FallbackPromptLimit: nat := 4000

  /** The deterministic fallback: the tag, the first 4000 characters of the prompt, and the trailer. */
  function FallbackReport(prompt: string): (r: string)
    ensures |r| <= |FallbackPrefix| + FallbackPromptLimit + |FallbackTrailer|
    ensures |r| >= |FallbackPrefix| + |FallbackTrailer|
    ensures r[..|FallbackPrefix|] == FallbackPrefix
    ensures r[|r| - |FallbackTrailer|..] == FallbackTrailer
    ensures var kept := r[|FallbackPrefix|..|r| - |FallbackTrailer|];
      kept <= prompt && (|prompt| <= FallbackPromptLimit ==> kept == prompt)
      && (|prompt| > FallbackPromptLimit ==> |kept| == FallbackPromptLimit)
  {
    var r := FallbackPrefix + Take(prompt, FallbackPromptLimit) + FallbackTrailer;
    assert r[|FallbackPrefix|..|r| - |FallbackTrailer|] == Take(prompt, FallbackPromptLimit);
    r
  }

  /**
   * `generate_text(prompt)` for a client whose provider is `provider`, given
   * what that provider's call returned. Every failure ends in the fallback
   * report: the fallback provider, a raised call, a non-ok Ollama status, and
   * an OpenAI reply without content (its `.strip()` raises). Otherwise the
   * reply text is stripped (Gemini and Ollama read a missing text as "").
   */
  function Generate(provider: Provider, prompt: string, reply: ProviderReply): (text: string)
    ensures text == FallbackReport(prompt) || (reply.Content? && text == Strip(reply.text.GetOr("")))
    ensures provider == Fallback || reply.Raised? || reply.NotOk? ==> text == FallbackReport(prompt)
    ensures provider == OpenAI && reply == Content(None) ==> text == FallbackReport(prompt)
    ensures provider != Fallback && reply.Content? && (reply.text.Some? || provider != OpenAI) ==>
      text == Strip(reply.text.GetOr(""))
  {
    match provider
    case OpenAI =>
      (match reply
       case Content(Some(t)) => Strip(t)
       case _ => FallbackReport(prompt))
    case Gemini =>
      (match reply
       case Content(t) => Strip(t.GetOr(""))
       case _ => FallbackReport(prompt))
    case Ollama =>
      (match reply
       case Content(t) => Strip(t.GetOr(""))
       case _ => FallbackReport(prompt))
    case Fallback => FallbackReport(prompt)
  }

  /** The module-level `_llm_singleton` and the `get_llm` that fills it. */
  class LlmRegistry {
    var instance: LLMClient?

    constructor ()
      ensures instance == null
    {
      instance := null;
    }

    /** `get_llm()`: builds the client on the first call and returns the same one after. */
    method GetLlm(env: LlmEnv) returns (c: LLMClient)
      modifies this
      ensures instance == c
      ensures old(instance) != null ==> c == old(instance)
      ensures old(instance) == null ==> fresh(c) && c.provider == SelectProvider(env)
    {
      if instance == null {
        instance := new LLMClient(env);
      }
      c := instance;
    }
  }

  /** Two calls of `get_llm` give one client, chosen from the environment seen first. */
  method CallGetLlmTwice(registry: LlmRegistry, first: LlmEnv, second: LlmEnv)
    returns (a: LLMClient, b: LLMClient)
    modifies registry
    ensures a == b && registry.instance == a
    ensures old(registry.instance) == null ==> a.provider == SelectProvider(first)
  {
    a := registry.GetLlm(first);
    b := registry.GetLlm(second);
  }
}
