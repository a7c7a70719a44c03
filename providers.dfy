/**
 * Provider names: the alias normalisation `run_debate` applies to a card's
 * model, and the dispatch `call_llm` performs on the (lower-cased, stripped)
 * provider name.
 */
module Providers {
  import opened Wrappers
  import opened Text

  /** The alias chain of `run_debate` (applied to participants and to the facilitator). */
  function NormaliseAlias(model: string): string {
    var m := Lower(model);
    if m == "chatgpt" || m == "gpt" || m == "openai" then "openai"
    else if m == "gemini" || m == "google" then "gemini"
    else if m == "llama" then "llama"
    else if m == "qwen" then "qwen"
    else if m == "kimi" then "kimi"
    else model
  }

  /** `provider.lower().strip()`, the first thing `call_llm` does. */
  function Canonical(provider: string): string {
    Strip(Lower(provider))
  }

  /** `GROQ_MODELS`. */
  const GroqModels: map<string, string> := map[
    "llama" := "llama-3.3-70b-versatile",
    "qwen" := "qwen/qwen3-32b",
    "kimi" := "moonshotai/kimi-k2-instruct"
  ]

  /** The adapter a provider is served by, with the model name `call_llm` passes to it. */
  datatype Backend = OpenAI(model: string) | Gemini(model: string) | Groq(model: string)

  /** The providers `call_llm` accepts. */
  const KnownProviders: set<string> := {"openai", "chatgpt", "gemini", "llama", "qwen", "kimi"}

  /**
   * The `if/elif` chain of `call_llm` on a canonical provider name, with the
   * default model of each branch (`model_name` is never given by the engine).
   */
  function Route(provider: string): Option<Backend> {
    if provider == "openai" || provider == "chatgpt" then Some(OpenAI("gpt-4o"))
    else if provider == "gemini" then Some(Gemini("gemini-2.5-flash"))
    else if provider in GroqModels then Some(Groq(GroqModels[provider]))
    else None
  }

  /** Only the six known names are served, and the Groq ones by their listed model. */
  lemma RouteServesKnownProviders(provider: string)
    ensures Route(provider).Some? <==> provider in KnownProviders
    ensures Route(provider).Some? && Route(provider).value.Groq? ==> Route(provider).value.model == GroqModels[provider]
    ensures provider == "openai" || provider == "chatgpt" ==> Route(provider) == Some(OpenAI("gpt-4o"))
    ensures provider == "gemini" ==> Route(provider) == Some(Gemini("gemini-2.5-flash"))
    ensures provider == "llama" ==> Route(provider) == Some(Groq("llama-3.3-70b-versatile"))
    ensures provider == "qwen" ==> Route(provider) == Some(Groq("qwen/qwen3-32b"))
    ensures provider == "kimi" ==> Route(provider) == Some(Groq("moonshotai/kimi-k2-instruct"))
  {
  }

  /** A string of lower-case letters has no upper-case letter and no white space. */
  lemma PlainName(s: string)
    requires forall i :: 0 <= i < |s| ==> 'a' <= s[i] <= 'z'
    ensures Lower(s) == s && Strip(s) == s && Canonical(s) == s
  {
    LowerOfLowerCase(s);
    StripWithoutSpace(s);
  }

  /** Normalising an alias twice is normalising it once. */
  lemma NormaliseAliasIdempotent(model: string)
    ensures NormaliseAlias(NormaliseAlias(model)) == NormaliseAlias(model)
  {
    var r := NormaliseAlias(model);
    if r != model {
      AliasTargetFixed(r);
    }
  }

  /** The names aliases normalise to are left alone by normalisation. */
  lemma AliasTargetFixed(r: string)
    requires r == "openai" || r == "gemini" || r == "llama" || r == "qwen" || r == "kimi"
    ensures NormaliseAlias(r) == r
  {
    PlainName(r);
    if r == "gemini" {
      assert r[0] != "openai"[0];
    } else if r == "kimi" {
      assert r[0] != "qwen"[0];
    }
  }

  /** How normalisation acts on a lower-case name `m` that it maps to `target`. */
  lemma NormalisedName(model: string, m: string, target: string)
    requires Lower(model) == m
    requires forall i :: 0 <= i < |m| ==> 'a' <= m[i] <= 'z'
    requires forall i :: 0 <= i < |target| ==> 'a' <= target[i] <= 'z'
    ensures Canonical(model) == m && Canonical(target) == target
  {
    PlainName(m);
    PlainName(target);
  }

  /**
   * Normalisation changes which adapter `call_llm` picks only for the aliases
   * "gpt" and "google" (in any letter case): those are unknown to `call_llm`
   * and served once normalised.
   */
  lemma NormaliseAliasRescuesGpt(model: string)
    requires Lower(model) == "gpt"
    ensures Route(Canonical(model)).None?
    ensures Route(Canonical(NormaliseAlias(model))) == Some(OpenAI("gpt-4o"))
  {
    NormalisedName(model, "gpt", "openai");
  }

  /** The alias "gpt" itself is unknown to `call_llm`, and what it normalises to is known. */
  lemma GptIsOnlyAnAlias()
    ensures Canonical("gpt") !in KnownProviders
    ensures Canonical(NormaliseAlias("gpt")) in KnownProviders
  {
    PlainName("gpt");
    NormaliseAliasRescuesGpt("gpt");
    RouteServesKnownProviders(Canonical("gpt"));
    RouteServesKnownProviders(Canonical(NormaliseAlias("gpt")));
  }

  /** The same for "google", which normalises to "gemini". */
  lemma NormaliseAliasRescuesGoogle(model: string)
    requires Lower(model) == "google"
    ensures Route(Canonical(model)).None?
    ensures Route(Canonical(NormaliseAlias(model))) == Some(Gemini("gemini-2.5-flash"))
  {
    assert Route("google").None?;
    assert NormaliseAlias(model) == "gemini";
    assert Route("gemini") == Some(Gemini("gemini-2.5-flash"));
    NormalisedName(model, "google", "gemini");
  }

  /** For every other name, normalising first does not change the dispatch. */
  lemma NormaliseAliasKeepsRoute(model: string)
    requires Lower(model) != "gpt" && Lower(model) != "google"
    ensures Route(Canonical(NormaliseAlias(model))) == Route(Canonical(model))
  {
    var m := Lower(model);
    if m == "chatgpt" {
      NormalisedName(model, "chatgpt", "openai");
    } else if m == "openai" {
      NormalisedName(model, "openai", "openai");
    } else if m == "gemini" {
      NormalisedName(model, "gemini", "gemini");
    } else if m == "llama" {
      NormalisedName(model, "llama", "llama");
    } else if m == "qwen" {
      NormalisedName(model, "qwen", "qwen");
    } else if m == "kimi" {
      NormalisedName(model, "kimi", "kimi");
    } else {
      assert NormaliseAlias(model) == model;
    }
  }
}
