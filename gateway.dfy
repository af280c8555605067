/**
 * The completion gateway: the call parameters, the json-mode instruction,
 * the request handed to the completion library and what comes back.
 */
module Gateway {
  import opened Wrappers
  import opened Messages
  import opened Text

  /** The tunable parameters of one chat call. */
  datatype Params = Params(
    temperature: real,
    topP: real,
    maxTokens: int,
    seed: Option<int>,
    stream: bool,
    jsonMode: bool,
    timeout: int)

  /** The system turn appended in json mode. */
  const JsonInstruction: Message := Message(SystemRole, "Return the response in JSON format.")

  /** The `type` of the structured-output flag set in json mode. */
  const JsonObjectFormat: string := "json_object"

  /** The keyword arguments of one completion call. */
  datatype Request = Request(
    model: string,
    messages: seq<Message>,
    temperature: real,
    topP: real,
    maxTokens: int,
    seed: Option<int>,
    stream: bool,
    timeout: int,
    responseFormat: Option<string>)

  /** Token accounting reported by the provider. */
  datatype Usage = Usage(promptTokens: int, completionTokens: int, totalTokens: int)

  /**
   * What the completion call does: return a response (the reported model,
   * the content of each choice, the usage, if any) or raise one of the
   * library's exceptions.
   */
  datatype Outcome =
    | Response(model: string, choices: seq<Option<string>>, usage: Option<Usage>)
    | TimeoutRaised
    | AuthRaised
    | OtherRaised(text: string)

  /** The library's model identifier, `"{provider}/{model}"`. */
  function Identifier(provider: string, model: string): (id: string)
    ensures '/' !in provider ==> BeforeFirstSlash(id) == provider
    ensures OccursAt(provider + "/", id, 0)
    ensures |id| == |provider| + 1 + |model|
    ensures OccursAt(model, id, |provider| + 1)
  {
    var id := provider + "/" + model;
    assert '/' !in provider ==> BeforeFirstSlash(id) == provider by {
      if '/' !in provider {
        BeforeFirstSlashOfJoined(provider, model);
      }
    }
    assert id[|provider| + 1..] == model;
    assert id[..|provider| + 1] == provider + "/";
    id
  }

  /** The outgoing list after the json-mode branch has run. */
  function WithJsonInstruction(outgoing: seq<Message>, jsonMode: bool): (sent: seq<Message>)
  {
    if jsonMode then outgoing + [JsonInstruction] else outgoing
  }

  /**
   * Json mode keeps the conversation as it was and adds exactly one system
   * turn, the instruction, as the last message; otherwise nothing changes.
   */
  lemma JsonModeAddsOneSystemTurn(outgoing: seq<Message>, jsonMode: bool)
    ensures var sent := WithJsonInstruction(outgoing, jsonMode);
      && sent[..|outgoing|] == outgoing
      && |sent| == |outgoing| + (if jsonMode then 1 else 0)
      && (jsonMode ==> sent[|sent| - 1] == JsonInstruction)
      && CountRole(sent, SystemRole) == CountRole(outgoing, SystemRole) + (if jsonMode then 1 else 0)
  {
    if jsonMode {
      CountRoleAppend(outgoing, [JsonInstruction], SystemRole);
      assert CountRole([JsonInstruction], SystemRole) == 1 + CountRole([], SystemRole);
    }
  }

  /**
   * The request for `provider`/`model` carrying the list `sent` as it is at
   * call time. Every tuning parameter is forwarded unchanged and the
   * structured-output flag is set exactly in json mode.
   */
  function BuildRequest(provider: string, model: string, sent: seq<Message>, params: Params): (req: Request)
    ensures req.model == provider + "/" + model
    ensures '/' !in provider ==> BeforeFirstSlash(req.model) == provider
    ensures req.messages == sent
    ensures req.temperature == params.temperature && req.topP == params.topP
    ensures req.maxTokens == params.maxTokens && req.seed == params.seed
    ensures req.stream == params.stream && req.timeout == params.timeout
    ensures req.responseFormat.Some? <==> params.jsonMode
    ensures params.jsonMode ==> req.responseFormat.value == JsonObjectFormat
  {
    Request(
      Identifier(provider, model), sent,
      params.temperature, params.topP, params.maxTokens, params.seed, params.stream, params.timeout,
      if params.jsonMode then Some(JsonObjectFormat) else None)
  }

  /**
   * The completion library as the chat core sees it: `respond` gives the
   * outcome of a request, `requests` records every request sent.
   */
  class CompletionClient {
    const respond: Request -> Outcome
    var requests: seq<Request>

    constructor (respond: Request -> Outcome)
      ensures this.respond == respond && requests == []
    {
      this.respond := respond;
      requests := [];
    }

    /** `litellm.completion(**params)`. */
    method Completion(req: Request) returns (outcome: Outcome)
      modifies this`requests
      ensures outcome == respond(req)
      ensures requests == old(requests) + [req]
    {
      outcome := respond(req);
      requests := requests + [req];
    }
  }
}
