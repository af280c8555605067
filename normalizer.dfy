/**
 * The response normalizer: the envelope every chat call returns, built
 * either from the provider's response or from the failure that stopped it.
 */
module Normalizer {
  import opened Wrappers
  import opened Text
  import opened ModelConfig
  import opened Gateway

  datatype ErrorCode =
    | InvalidInput
    | ConfigError
    | ModelAliasNotFound
    | TimeoutError
    | AuthError
    | ProviderError

  /** The code as it appears in the `code` field. */
  function WireCode(c: ErrorCode): string {
    match c
    case InvalidInput => "INVALID_INPUT"
    case ConfigError => "CONFIG_ERROR"
    case ModelAliasNotFound => "MODEL_ALIAS_NOT_FOUND"
    case TimeoutError => "TIMEOUT_ERROR"
    case AuthError => "AUTH_ERROR"
    case ProviderError => "PROVIDER_ERROR"
  }

  /** Distinct codes are distinct on the wire, so a client can tell every failure apart by its code. */
  lemma WireCodesDistinct(c: ErrorCode, d: ErrorCode)
    requires c != d
    ensures WireCode(c) != WireCode(d)
  {
    assert WireCode(c)[..|WireCode(c)|] == WireCode(c);
  }

  /** The `error` object: `{"code": ..., "message": ...}`. */
  datatype ErrorBody = ErrorBody(code: ErrorCode, message: string)

  /**
   * The dict returned by a chat call, one field per key it may hold
   * (`output_text`, `error`, `provider`, `model`, `usage`, `latency_ms`,
   * `cost_estimated`); `request_id` is written in every envelope.
   */
  datatype Envelope = Envelope(
    outputText: Field<string>,
    error: Field<ErrorBody>,
    provider: Field<string>,
    model: Field<string>,
    usage: Field<Usage>,
    latencyMs: Field<int>,
    costEstimated: Field<real>,
    requestId: string)

  /**
   * The envelope's invariant: exactly one of `output_text` and `error` is
   * present; a success carries provider, model, usage, latency and a null
   * cost; a failure carries no metrics.
   */
  predicate WellFormed(e: Envelope) {
    && (e.outputText.Present() <==> !e.error.Present())
    && (e.error.Present() ==>
          e.error.Val? && e.usage.Absent? && e.latencyMs.Absent? && e.costEstimated.Absent?)
    && (e.outputText.Present() ==>
          e.provider.Val? && e.model.Val? && e.usage.Val? && e.latencyMs.Val? && e.costEstimated.Null?)
  }

  /** The code an envelope reports, when it reports one. */
  predicate HasCode(e: Envelope, c: ErrorCode) {
    e.error.Val? && e.error.value.code == c
  }

  const InvalidInputMessage: string := "Para usar RAG, a última mensagem deve ser do usuário."
  const ConfigErrorMessage: string := "Config file not found"
  const TimeoutMessage: string := "The request timed out."
  const AuthMessage: string := "Authentication failed. Check your API key in .env"

  function AliasNotFoundMessage(alias: string): string {
    "Model alias '" + alias + "' not found in config"
  }

  function ProviderErrorMessage(text: string): string {
    "An error occurred with the provider: " + text
  }

  /** `str()` of the IndexError raised by `response.choices[0]` on no choices. */
  const NoChoicesText: string := "list index out of range"

  /** `str()` of the AttributeError raised by `usage.prompt_tokens` when usage is None. */
  const NoUsageText: string := "'NoneType' object has no attribute 'prompt_tokens'"

  /** A failure envelope that carries the given provider and model keys. */
  function FailureEnvelope(code: ErrorCode, message: string, provider: Field<string>, model: Field<string>, requestId: string): (e: Envelope)
    ensures WellFormed(e) && HasCode(e, code) && e.requestId == requestId
  {
    Envelope(Absent, Val(ErrorBody(code, message)), provider, model, Absent, Absent, Absent, requestId)
  }

  /** The retrieval check failed: no provider or model key at all. */
  function InvalidInputEnvelope(requestId: string): (e: Envelope)
    ensures WellFormed(e) && HasCode(e, InvalidInput) && e.requestId == requestId
    ensures e.provider.Absent? && e.model.Absent?
    ensures e.error.value.message == InvalidInputMessage
  {
    FailureEnvelope(InvalidInput, InvalidInputMessage, Absent, Absent, requestId)
  }

  /**
   * Alias resolution failed: a missing file is a configuration error,
   * anything else an unknown alias; provider and model are null.
   */
  function ResolutionFailure(res: Resolution, alias: string, requestId: string): (e: Envelope)
    requires !res.Resolved?
    ensures WellFormed(e) && e.requestId == requestId
    ensures HasCode(e, ConfigError) <==> res.ConfigFileMissing?
    ensures HasCode(e, ModelAliasNotFound) <==> res.AliasNotFound?
    ensures e.provider.Null? && e.model.Null?
    ensures HasCode(e, ConfigError) ==> e.error.value.message == ConfigErrorMessage
    ensures HasCode(e, ModelAliasNotFound) ==> e.error.value.message == AliasNotFoundMessage(alias)
  {
    if res.ConfigFileMissing? then FailureEnvelope(ConfigError, ConfigErrorMessage, Null, Null, requestId)
    else FailureEnvelope(ModelAliasNotFound, AliasNotFoundMessage(alias), Null, Null, requestId)
  }

  /** The response has a first choice and a usage record, so nothing raises while reading it. */
  predicate Extractable(outcome: Outcome) {
    outcome.Response? && |outcome.choices| > 0 && outcome.usage.Some?
  }

  /** The text of the exception that ended the call, when it was not a timeout or an authentication failure. */
  function FailureText(outcome: Outcome): string
    requires !Extractable(outcome)
  {
    match outcome
    case OtherRaised(text) => text
    case Response(_, choices, _) => if |choices| == 0 then NoChoicesText else NoUsageText
    case _ => ""
  }

  /**
   * Normalisation of the completion call for the configured `provider` and
   * `model`. A readable response yields its first choice, the reported
   * model verbatim, the provider named by that model's text before the
   * first '/', the usage verbatim, the measured latency and a null cost.
   * Otherwise the envelope reports a timeout, an authentication failure or
   * a provider error with the exception text, under the configured pair.
   */
  function Normalize(outcome: Outcome, provider: string, model: string, latencyMs: int, requestId: string): (e: Envelope)
    ensures WellFormed(e) && e.requestId == requestId
    ensures e.outputText.Present() <==> Extractable(outcome)
    ensures Extractable(outcome) ==>
      && e.outputText == FromOption(outcome.choices[0])
      && e.model == Val(outcome.model)
      && e.provider.Val? && OccursAt(e.provider.value, outcome.model, 0) && '/' !in e.provider.value
      && (|e.provider.value| < |outcome.model| ==> outcome.model[|e.provider.value|] == '/')
      && e.usage == Val(outcome.usage.value)
      && e.latencyMs == Val(latencyMs)
    ensures !Extractable(outcome) ==>
      && e.provider == Val(provider) && e.model == Val(model)
      && HasCode(e, TimeoutError) == outcome.TimeoutRaised?
      && HasCode(e, AuthError) == outcome.AuthRaised?
      && (HasCode(e, ProviderError) <==> outcome.OtherRaised? || outcome.Response?)
    ensures outcome.TimeoutRaised? ==> e.error == Val(ErrorBody(TimeoutError, TimeoutMessage))
    ensures outcome.AuthRaised? ==> e.error == Val(ErrorBody(AuthError, AuthMessage))
    ensures outcome.OtherRaised? ==> e.error == Val(ErrorBody(ProviderError, ProviderErrorMessage(outcome.text)))
    ensures outcome.Response? && !Extractable(outcome) ==>
      e.error == Val(ErrorBody(ProviderError,
        ProviderErrorMessage(if |outcome.choices| == 0 then NoChoicesText else NoUsageText)))
  {
    match outcome
    case TimeoutRaised => FailureEnvelope(TimeoutError, TimeoutMessage, Val(provider), Val(model), requestId)
    case AuthRaised => FailureEnvelope(AuthError, AuthMessage, Val(provider), Val(model), requestId)
    case OtherRaised(text) =>
      FailureEnvelope(ProviderError, ProviderErrorMessage(text), Val(provider), Val(model), requestId)
    case Response(reported, choices, usage) =>
      if !Extractable(outcome) then
        FailureEnvelope(ProviderError, ProviderErrorMessage(FailureText(outcome)), Val(provider), Val(model), requestId)
      else
        Envelope(
          FromOption(choices[0]), Absent, Val(BeforeFirstSlash(reported)), Val(reported),
          Val(usage.value), Val(latencyMs), Null, requestId)
  }
}
