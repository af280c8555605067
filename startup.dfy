/**
 * The startup gate: the configuration must exist and declare aliases,
 * and every provider they name must have an API key and answer a probe.
 */
module Startup {
  import opened Wrappers
  import opened Text
  import opened Messages
  import opened ModelConfig

  /** Why startup stops, one case per exception `validate_startup` lets out. */
  datatype Fatal =
    | ConfigNotFound                          // FileNotFoundError
    | ConfigInvalid(detail: string)           // RuntimeError wrapping the ValueError
    | ProviderFieldMissing                    // KeyError from `info['provider']`
    | ApiKeyMissing(provider: string)         // RuntimeError
    | ProbeFailed(provider: string, cause: string)  // RuntimeError wrapping the probe's exception

  datatype StartupResult = Started | Aborted(fatal: Fatal)

  const NoAliasesText: string := "No aliases found in models.json"
  const ApiKeySuffix: string := "_API_KEY"

  /** The Python exception class that carries each fatal condition. */
  function ExceptionClass(f: Fatal): string {
    match f
    case ConfigNotFound => "FileNotFoundError"
    case ProviderFieldMissing => "KeyError"
    case _ => "RuntimeError"
  }

  /** The exception's text; `configPath` is where the file was looked for. */
  function FatalMessage(f: Fatal, configPath: string): string {
    match f
    case ConfigNotFound =>
      "models.json not found at " + configPath + ". Please check your project structure."
    case ConfigInvalid(detail) => "Error parsing models.json: " + detail
    case ProviderFieldMissing => "'provider'"
    case ApiKeyMissing(p) =>
      "API key for provider '" + p + "' not found. Please set " + KeyName(p) + " in your .env file."
    case ProbeFailed(p, cause) =>
      "Failed to connect to provider '" + p + "'. Check your API key and network connection. Error: " + cause
  }

  /**
   * The `API key ... not found` message names the variable to set, right
   * after its fixed lead-in.
   */
  lemma MissingKeyMessageNamesVariable(provider: string, configPath: string)
    ensures var lead := "API key for provider '" + provider + "' not found. Please set ";
      OccursAt(KeyName(provider), FatalMessage(ApiKeyMissing(provider), configPath), |lead|)
  {
    var lead := "API key for provider '" + provider + "' not found. Please set ";
    var msg := FatalMessage(ApiKeyMissing(provider), configPath);
    assert msg == lead + KeyName(provider) + " in your .env file.";
    assert msg[|lead|..|lead| + |KeyName(provider)|] == KeyName(provider);
  }

  /** `models_config.get("aliases", {})`. */
  function AliasesOf(doc: ConfigDoc): AliasTable {
    doc.aliases.GetOr(map[])
  }

  predicate AllHaveProvider(table: AliasTable) {
    forall a :: a in table ==> ProviderKey in table[a]
  }

  /** Outcome of the checks made before the provider loop. */
  datatype Precheck = Proceed(providers: set<string>) | Abort(fatal: Fatal)

  /**
   * Steps 1 and 2 up to the loop: read the file, insist on a non-empty
   * alias table, and collect the distinct providers the aliases name.
   */
  function CheckConfig(config: Option<ConfigDoc>): (c: Precheck)
    ensures c.Proceed? <==>
      config.Some? && |AliasesOf(config.value)| > 0 && AllHaveProvider(AliasesOf(config.value))
    ensures c.Proceed? ==> forall p ::
      p in c.providers <==> exists a :: a in AliasesOf(config.value) && AliasesOf(config.value)[a][ProviderKey] == p
    ensures c == Abort(ConfigNotFound) <==> config.None?
    ensures c == Abort(ConfigInvalid(NoAliasesText)) <==> config.Some? && |AliasesOf(config.value)| == 0
    ensures c == Abort(ProviderFieldMissing) <==>
      config.Some? && |AliasesOf(config.value)| > 0 && !AllHaveProvider(AliasesOf(config.value))
  {
    match config
    case None => Abort(ConfigNotFound)
    case Some(doc) =>
      var table := AliasesOf(doc);
      if |table| == 0 then Abort(ConfigInvalid(NoAliasesText))
      else if !AllHaveProvider(table) then Abort(ProviderFieldMissing)
      else Proceed(set a | a in table :: table[a][ProviderKey])
  }

  /**
   * How a failed configuration check surfaces: `FileNotFoundError` exactly
   * for a missing file, `KeyError` exactly for an alias without a
   * provider, and `RuntimeError` (wrapping the `ValueError`) for an empty
   * alias table.
   */
  lemma ConfigAbortClass(config: Option<ConfigDoc>)
    requires CheckConfig(config).Abort?
    ensures ExceptionClass(CheckConfig(config).fatal) == "FileNotFoundError" <==> config.None?
    ensures ExceptionClass(CheckConfig(config).fatal) == "KeyError" <==>
      config.Some? && |AliasesOf(config.value)| > 0 && !AllHaveProvider(AliasesOf(config.value))
    ensures ExceptionClass(CheckConfig(config).fatal) == "RuntimeError" <==>
      config.Some? && |AliasesOf(config.value)| == 0
  {
  }

  /** The environment variable that holds a provider's key: `{PROVIDER}_API_KEY`. */
  function KeyName(provider: string): string {
    Upper(provider) + ApiKeySuffix
  }

  /**
   * The key name is the provider with its letters upper-cased, then the
   * suffix; no lower-case ASCII letter is left in it.
   */
  lemma KeyNameShape(provider: string)
    ensures |KeyName(provider)| == |provider| + |ApiKeySuffix|
    ensures OccursAt(ApiKeySuffix, KeyName(provider), |provider|)
    ensures forall i :: 0 <= i < |KeyName(provider)| ==> !IsLowerAscii(KeyName(provider)[i])
  {
    UpperShape(provider);
    var k := KeyName(provider);
    assert k[|provider|..] == ApiKeySuffix;
    forall i | |provider| <= i < |k|
      ensures !IsLowerAscii(k[i])
    {
      assert k[i] == ApiKeySuffix[i - |provider|];
    }
  }

  /** Providers that differ only in letter case share one key variable. */
  lemma KeyNameIgnoresCase(provider: string)
    ensures KeyName(Upper(provider)) == KeyName(provider)
  {
    UpperIdempotent(provider);
  }

  /** `os.getenv(name)` is truthy: the variable is set and not empty. */
  predicate HasApiKey(env: map<string, string>, provider: string) {
    KeyName(provider) in env && env[KeyName(provider)] != ""
  }

  const GroqProbeModel: string := "groq/" + "llama-3.1-8b-instant"
  const FireworksProbeModel: string := "fireworks_ai/" + "accounts/fireworks/models/qwen2p5-vl-32b-instruct"
  const DefaultProbeSuffix: string := "/gpt-3.5-turbo"

  /** The model each provider is probed with. */
  function ProbeModel(provider: string): string
  {
    if provider == "groq" then GroqProbeModel
    else if provider == "fireworks_ai" then FireworksProbeModel
    else provider + DefaultProbeSuffix
  }

  /**
   * The probe model per provider: the two fixed models for `groq` and
   * `fireworks_ai`, `gpt-3.5-turbo` under the provider's name otherwise.
   */
  lemma ProbeModelChoice(provider: string)
    ensures provider == "groq" ==> ProbeModel(provider) == "groq/" + "llama-3.1-8b-instant"
    ensures provider == "fireworks_ai" ==>
      ProbeModel(provider) == "fireworks_ai/" + "accounts/fireworks/models/qwen2p5-vl-32b-instruct"
    ensures provider != "groq" && provider != "fireworks_ai" ==>
      ProbeModel(provider) == provider + "/gpt-3.5-turbo"
  {
  }

  /** Every probe model is addressed to its own provider: it starts with `provider + "/"`. */
  lemma ProbeModelNamesProvider(provider: string)
    ensures OccursAt(provider + "/", ProbeModel(provider), 0)
  {
    if provider != "groq" && provider != "fireworks_ai" {
      var m := provider + DefaultProbeSuffix;
      assert m[..|provider| + 1] == provider + "/";
    }
  }

  /** A default probe model ends in 'o', the two fixed ones in 't'. */
  lemma ProbeModelEndings(provider: string)
    ensures var m := provider + DefaultProbeSuffix; m[|m| - 1] == 'o'
    ensures GroqProbeModel[|GroqProbeModel| - 1] == 't'
    ensures FireworksProbeModel[|FireworksProbeModel| - 1] == 't'
  {
  }

  /** No two providers are probed with the same model. */
  lemma {:induction false} ProbeModelInjective(p: string, q: string)
    requires ProbeModel(p) == ProbeModel(q)
    ensures p == q
  {
    var m := ProbeModel(p);
    var pDefault := p != "groq" && p != "fireworks_ai";
    var qDefault := q != "groq" && q != "fireworks_ai";
    if pDefault && qDefault {
      assert |p| == |q|;
      assert p == m[..|p|] == q;
    } else if !pDefault && !qDefault {
      assert |GroqProbeModel| != |FireworksProbeModel|;
    } else {
      ProbeModelEndings(if pDefault then p else q);
      assert false;
    }
  }

  /** The probe: one user "ping" with a mocked "pong" reply. */
  datatype ProbeRequest = ProbeRequest(model: string, messages: seq<Message>, mockResponse: string)

  datatype ProbeOutcome = Pong | Raised(text: string)

  const PingMessage: Message := Message(UserRole, "ping")
  const MockReply: string := "pong"

  function ProbeFor(provider: string): ProbeRequest {
    ProbeRequest(ProbeModel(provider), [PingMessage], MockReply)
  }

  /** The probes issued for `ps`, in order. */
  function ProbeRequests(ps: seq<string>): seq<ProbeRequest>
  {
    if ps == [] then [] else ProbeRequests(ps[..|ps| - 1]) + [ProbeFor(ps[|ps| - 1])]
  }

  /** The completion library as the probe loop sees it; `probes` logs every call. */
  class ProbeClient {
    const respond: ProbeRequest -> ProbeOutcome
    var probes: seq<ProbeRequest>

    constructor (respond: ProbeRequest -> ProbeOutcome)
      ensures this.respond == respond && probes == []
    {
      this.respond := respond;
      probes := [];
    }

    /** `litellm.completion(model=..., messages=..., mock_response=...)`. */
    method Completion(req: ProbeRequest) returns (outcome: ProbeOutcome)
      modifies this`probes
      ensures outcome == respond(req)
      ensures probes == old(probes) + [req]
    {
      outcome := respond(req);
      probes := probes + [req];
    }
  }

  /** A provider passes: its key is set and its probe answers. */
  predicate Passes(env: map<string, string>, respond: ProbeRequest -> ProbeOutcome, provider: string) {
    HasApiKey(env, provider) && respond(ProbeFor(provider)) == Pong
  }

  /** The providers listed in `s`. */
  ghost function Elems(s: seq<string>): set<string> {
    set x | x in s
  }

  predicate Distinct(s: seq<string>) {
    forall i, j :: 0 <= i < j < |s| ==> s[i] != s[j]
  }

  /**
   * One pass of the provider loop: the key check, then the probe. The
   * provider passes exactly when both succeed; it is probed only when its
   * key is set, and a failure says which of the two failed.
   */
  method CheckProvider(provider: string, env: map<string, string>, client: ProbeClient)
    returns (failure: Option<Fatal>)
    modifies client
    ensures failure.None? <==> Passes(env, client.respond, provider)
    ensures failure.Some? && !HasApiKey(env, provider) ==> failure.value == ApiKeyMissing(provider)
    ensures failure.Some? && HasApiKey(env, provider) ==>
      && failure.value.ProbeFailed? && failure.value.provider == provider
      && client.respond(ProbeFor(provider)) == Raised(failure.value.cause)
    ensures client.probes == old(client.probes) + (if HasApiKey(env, provider) then [ProbeFor(provider)] else [])
  {
    var apiKeyName := KeyName(provider);
    if apiKeyName !in env || env[apiKeyName] == "" {
      return Some(ApiKeyMissing(provider));
    }
    var testModel := provider + DefaultProbeSuffix;
    if provider == "groq" {
      testModel := GroqProbeModel;
    } else if provider == "fireworks_ai" {
      testModel := FireworksProbeModel;
    }
    var outcome := client.Completion(ProbeRequest(testModel, [PingMessage], MockReply));
    if outcome.Raised? {
      return Some(ProbeFailed(provider, outcome.text));
    }
    failure := None;
  }

  /** Visiting a provider not visited before keeps the visit order free of repeats. */
  lemma VisitNew(order: seq<string>, p: string)
    requires Distinct(order) && p !in Elems(order)
    ensures Distinct(order + [p])
    ensures Elems(order + [p]) == Elems(order) + {p}
  {
    forall i | 0 <= i < |order|
      ensures order[i] != p
    {
      assert order[i] in Elems(order);
    }
  }

  /**
   * The provider loop's invariant: `order` lists, without repeats, the
   * providers visited so far, which are exactly those no longer
   * `remaining`, and every one of them passed.
   */
  ghost predicate VisitedSoFar(
    providers: set<string>, env: map<string, string>, respond: ProbeRequest -> ProbeOutcome,
    remaining: set<string>, order: seq<string>)
  {
    && Elems(order) <= providers && remaining == providers - Elems(order)
    && Distinct(order)
    && (forall i :: 0 <= i < |order| ==> Passes(env, respond, order[i]))
  }

  /**
   * What the provider loop guarantees on exit with result `r` after visiting
   * `order`. Each provider is visited at most once and only after its key
   * was found; all but the last visited passed. The loop completes exactly
   * when every provider passes, and then it has visited them all. A
   * missing key names an unvisited provider without a key, and every
   * provider visited before it passed; a failed probe
   * names the last provider visited and carries the probe's exception text.
   */
  ghost predicate LoopOutcome(
    providers: set<string>, env: map<string, string>, respond: ProbeRequest -> ProbeOutcome,
    r: StartupResult, order: seq<string>)
  {
    && Distinct(order)
    && (forall i :: 0 <= i < |order| ==> order[i] in providers && HasApiKey(env, order[i]))
    && (forall i :: 0 <= i < |order| - 1 ==> Passes(env, respond, order[i]))
    && (r.Started? <==> forall p :: p in providers ==> Passes(env, respond, p))
    && (r.Started? ==> Elems(order) == providers)
    && (r.Aborted? ==> r.fatal.ApiKeyMissing? || r.fatal.ProbeFailed?)
    && (r.Aborted? && r.fatal.ApiKeyMissing? ==>
          && r.fatal.provider in providers && !HasApiKey(env, r.fatal.provider) && r.fatal.provider !in order
          && forall i :: 0 <= i < |order| ==> Passes(env, respond, order[i]))
    && (r.Aborted? && r.fatal.ProbeFailed? ==>
          && |order| > 0 && order[|order| - 1] == r.fatal.provider
          && respond(ProbeFor(r.fatal.provider)) == Raised(r.fatal.cause))
  }

  /** A provider that passes moves from `remaining` to the end of `order`. */
  lemma {:induction false} VisitPassing(
    providers: set<string>, env: map<string, string>, respond: ProbeRequest -> ProbeOutcome,
    remaining: set<string>, order: seq<string>, p: string)
    requires VisitedSoFar(providers, env, respond, remaining, order)
    requires p in remaining && Passes(env, respond, p)
    ensures VisitedSoFar(providers, env, respond, remaining - {p}, order + [p])
  {
    VisitNew(order, p);
  }

  /** A provider without a key stops the loop before it is probed. */
  lemma {:induction false} StopOnMissingKey(
    providers: set<string>, env: map<string, string>, respond: ProbeRequest -> ProbeOutcome,
    remaining: set<string>, order: seq<string>, p: string)
    requires VisitedSoFar(providers, env, respond, remaining, order)
    requires p in remaining && !HasApiKey(env, p)
    ensures LoopOutcome(providers, env, respond, Aborted(ApiKeyMissing(p)), order)
  {
    assert p !in Elems(order);
    assert !Passes(env, respond, p);
  }

  /** A provider whose probe raises stops the loop after it is probed. */
  lemma {:induction false} StopOnFailedProbe(
    providers: set<string>, env: map<string, string>, respond: ProbeRequest -> ProbeOutcome,
    remaining: set<string>, order: seq<string>, p: string, cause: string)
    requires VisitedSoFar(providers, env, respond, remaining, order)
    requires p in remaining && HasApiKey(env, p) && respond(ProbeFor(p)) == Raised(cause)
    ensures LoopOutcome(providers, env, respond, Aborted(ProbeFailed(p, cause)), order + [p])
  {
    VisitNew(order, p);
    assert !Passes(env, respond, p);
    assert (order + [p])[..|order|] == order;
  }

  /** When no provider is left to visit, every provider was visited and passed. */
  lemma {:induction false} FinishWhenAllVisited(
    providers: set<string>, env: map<string, string>, respond: ProbeRequest -> ProbeOutcome,
    order: seq<string>)
    requires VisitedSoFar(providers, env, respond, {}, order)
    ensures LoopOutcome(providers, env, respond, Started, order)
  {
    forall p | p in providers
      ensures p in Elems(order) && Passes(env, respond, p)
    {
      assert p !in providers - Elems(order);
      var i :| 0 <= i < |order| && order[i] == p;
    }
  }

  /**
   * The provider loop of `validate_startup()`. Providers are visited in an
   * order the model leaves open (Python iterates a set); the ghost `order`
   * is the order in which they were visited, and the log of probes sent
   * follows it.
   */
  method CheckProviders(providers: set<string>, env: map<string, string>, client: ProbeClient)
    returns (r: StartupResult, ghost order: seq<string>)
    modifies client
    ensures client.probes == old(client.probes) + ProbeRequests(order)
    ensures LoopOutcome(providers, env, client.respond, r, order)
  {
    order := [];
    var remaining := providers;
    while remaining != {}
      invariant VisitedSoFar(providers, env, client.respond, remaining, order)
      invariant client.probes == old(client.probes) + ProbeRequests(order)
      decreases remaining
    {
      var provider :| provider in remaining;
      var failure := CheckProvider(provider, env, client);
      assert (order + [provider])[..|order|] == order;
      if failure.Some? {
        if failure.value.ProbeFailed? {
          StopOnFailedProbe(providers, env, client.respond, remaining, order, provider, failure.value.cause);
          order := order + [provider];
        } else {
          StopOnMissingKey(providers, env, client.respond, remaining, order, provider);
        }
        return Aborted(failure.value), order;
      }
      VisitPassing(providers, env, client.respond, remaining, order, provider);
      order := order + [provider];
      remaining := remaining - {provider};
    }
    FinishWhenAllVisited(providers, env, client.respond, order);
    r := Started;
  }

  /**
   * `validate_startup()`: the configuration checks, then the provider
   * loop. A configuration that fails its checks stops startup before any
   * key is looked at or any provider probed.
   */
  method ValidateStartup(config: Option<ConfigDoc>, env: map<string, string>, client: ProbeClient)
    returns (r: StartupResult, ghost order: seq<string>)
    modifies client
    ensures client.probes == old(client.probes) + ProbeRequests(order)
    ensures CheckConfig(config).Abort? ==> r == Aborted(CheckConfig(config).fatal) && order == []
    ensures CheckConfig(config).Proceed? ==>
      LoopOutcome(CheckConfig(config).providers, env, client.respond, r, order)
  {
    var check := CheckConfig(config);
    if check.Abort? {
      return Aborted(check.fatal), [];
    }
    r, order := CheckProviders(check.providers, env, client);
  }

  /** Every way the provider loop stops surfaces as a `RuntimeError`. */
  lemma LoopAbortsAreRuntimeErrors(
    providers: set<string>, env: map<string, string>, respond: ProbeRequest -> ProbeOutcome,
    fatal: Fatal, order: seq<string>)
    requires LoopOutcome(providers, env, respond, Aborted(fatal), order)
    ensures ExceptionClass(fatal) == "RuntimeError"
  {
  }

  /**
   * After a successful startup, every alias that resolves names a
   * provider whose key is set and whose probe answered.
   */
  lemma ResolvableAliasesWereValidated(
    config: Option<ConfigDoc>, env: map<string, string>, respond: ProbeRequest -> ProbeOutcome,
    alias: string, p: string, m: string)
    requires CheckConfig(config).Proceed?
    requires forall q :: q in CheckConfig(config).providers ==> Passes(env, respond, q)
    requires Declares(config, alias, p, m)
    ensures HasApiKey(env, p) && respond(ProbeFor(p)) == Pong
  {
    var table := AliasesOf(config.value);
    assert alias in table && table[alias][ProviderKey] == p;
    assert p in CheckConfig(config).providers;
  }
}
