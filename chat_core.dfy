/**
 * The chat orchestration: retrieval check and composition, alias
 * resolution, request building and normalisation, in that order.
 */
module ChatCore {
  import opened Wrappers
  import opened Text
  import opened Messages
  import opened ModelConfig
  import opened Rag
  import opened Gateway
  import opened Normalizer

  /**
   * Everything one chat call does that a caller can observe: the envelope
   * it returns, the caller's message list afterwards, the query it sent to
   * the retriever (if any), whether it read the configuration file and the
   * completion request it made (if any).
   */
  datatype ChatRun = ChatRun(
    envelope: Envelope,
    callerAfter: seq<Message>,
    retrieval: Option<string>,
    configRead: bool,
    request: Option<Request>)

  /**
   * One chat call, given its oracles: `search` (the retriever), `config`
   * (the parsed configuration file, `None` when it does not exist),
   * `respond` (the completion library), the request id and the measured
   * latency. When retrieval is off the outgoing list IS the caller's
   * list, so the json-mode append shows in `callerAfter`; when it is on
   * the outgoing list is a new one and the caller's list is untouched.
   */
  function ChatSpec(
    messages: seq<Message>, alias: string, params: Params, useRag: bool,
    search: string -> seq<string>, config: Option<ConfigDoc>, respond: Request -> Outcome,
    requestId: string, latencyMs: int): (run: ChatRun)
    ensures WellFormed(run.envelope) && run.envelope.requestId == requestId
  {
    if useRag && !ValidForRag(messages) then
      ChatRun(InvalidInputEnvelope(requestId), messages, None, false, None)
    else
      var retrieval := if useRag then Some(Query(messages)) else None;
      var outgoing := Outgoing(messages, useRag, search);
      var res := Resolve(config, alias);
      if !res.Resolved? then
        ChatRun(ResolutionFailure(res, alias, requestId), messages, retrieval, true, None)
      else
        var sent := WithJsonInstruction(outgoing, params.jsonMode);
        var req := BuildRequest(res.provider, res.model, sent, params);
        ChatRun(
          Normalize(respond(req), res.provider, res.model, latencyMs, requestId),
          if useRag then messages else sent, retrieval, true, Some(req))
  }

  /** The list that goes on to the completion step, before the json instruction. */
  function Outgoing(messages: seq<Message>, useRag: bool, search: string -> seq<string>): seq<Message>
    requires !useRag || ValidForRag(messages)
  {
    if useRag then ComposeRag(Query(messages), search(Query(messages))) else messages
  }

  /**
   * The retrieval phase of `chat(...)`: with retrieval off the outgoing
   * list is the caller's own list object; with it on, an invalid list is
   * refused before the retriever is asked, and a valid one is replaced by
   * a new list holding the composed turn. The caller's list is not
   * changed here.
   */
  method PrepareOutgoing(messages: MessageList, useRag: bool, retriever: Retriever)
    returns (ok: bool, outgoing: MessageList)
    modifies retriever
    ensures ok <==> !useRag || ValidForRag(messages.items)
    ensures ok ==> outgoing.items == Outgoing(messages.items, useRag, retriever.search)
    ensures ok ==> (outgoing == messages <==> !useRag)
    ensures ok && useRag ==> fresh(outgoing)
    ensures retriever.queries == old(retriever.queries) + (if ok && useRag then [Query(messages.items)] else [])
  {
    outgoing := messages;
    ok := true;
    if useRag {
      var items := messages.items;
      if |items| == 0 || items[|items| - 1].role != UserRole {
        ok := false;
        return;
      }
      var query := items[|items| - 1].content;
      var fragments := retriever.GetRelevantDocuments(query);
      outgoing := new MessageList(ComposeRag(query, fragments));
    }
  }

  /**
   * `chat(...)`. The caller's list is the object `messages`; the retriever
   * and the completion library log the calls made to them.
   */
  method Chat(
    messages: MessageList, alias: string, params: Params, useRag: bool,
    retriever: Retriever, config: Option<ConfigDoc>, client: CompletionClient,
    requestId: string, latencyMs: int) returns (r: Envelope)
    modifies messages, retriever, client
    ensures var run := ChatSpec(old(messages.items), alias, params, useRag,
                                retriever.search, config, client.respond, requestId, latencyMs);
      && r == run.envelope
      && messages.items == run.callerAfter
      && retriever.queries == old(retriever.queries) + run.retrieval.ToSeq()
      && client.requests == old(client.requests) + run.request.ToSeq()
  {
    ghost var before := messages.items;
    ghost var run := ChatSpec(before, alias, params, useRag,
                              retriever.search, config, client.respond, requestId, latencyMs);
    var ok, outgoing := PrepareOutgoing(messages, useRag, retriever);
    if !ok {
      return InvalidInputEnvelope(requestId);
    }
    ghost var composed := outgoing.items;
    ghost var retrieval := if useRag then Some(Query(before)) else None;
    assert retriever.queries == old(retriever.queries) + retrieval.ToSeq();

    var res := Resolve(config, alias);
    if !res.Resolved? {
      assert run == ChatRun(ResolutionFailure(res, alias, requestId), before, retrieval, true, None);
      return ResolutionFailure(res, alias, requestId);
    }

    if params.jsonMode {
      outgoing.Append(JsonInstruction);
    }
    assert outgoing.items == WithJsonInstruction(composed, params.jsonMode);
    var req := BuildRequest(res.provider, res.model, outgoing.items, params);
    assert run.request == Some(req);
    assert run.callerAfter == if useRag then before else outgoing.items;
    var outcome := client.Completion(req);
    r := Normalize(outcome, res.provider, res.model, latencyMs, requestId);
  }

  /**
   * With retrieval on, an empty list or a last turn not from the user is
   * rejected before anything else: INVALID_INPUT, no provider or model
   * key, no retrieval, no configuration read, no completion call, and
   * whatever the configuration or the alias.
   */
  lemma InvalidInputComesFirst(
    messages: seq<Message>, alias: string, params: Params,
    search: string -> seq<string>, config: Option<ConfigDoc>, respond: Request -> Outcome,
    requestId: string, latencyMs: int)
    requires messages == [] || messages[|messages| - 1].role != UserRole
    ensures var run := ChatSpec(messages, alias, params, true, search, config, respond, requestId, latencyMs);
      && HasCode(run.envelope, InvalidInput)
      && run.envelope.provider.Absent? && run.envelope.model.Absent?
      && run.retrieval.None? && !run.configRead && run.request.None?
      && run.callerAfter == messages
  {
  }

  /**
   * With retrieval on and a valid list, the completion receives one user
   * turn quoting the query and every fragment verbatim (followed by the
   * json instruction in json mode), and the caller's list is not changed.
   */
  lemma RagSendsOneGroundedTurn(
    messages: seq<Message>, alias: string, params: Params,
    search: string -> seq<string>, config: Option<ConfigDoc>, respond: Request -> Outcome,
    requestId: string, latencyMs: int)
    requires ValidForRag(messages)
    requires Resolve(config, alias).Resolved?
    ensures var run := ChatSpec(messages, alias, params, true, search, config, respond, requestId, latencyMs);
      var query := messages[|messages| - 1].content;
      && run.retrieval == Some(query)
      && run.request.Some?
      && var sent := run.request.value.messages;
      && |sent| == (if params.jsonMode then 2 else 1)
      && sent[0].role == UserRole
      && Contains(sent[0].content, query)
      && (forall i :: 0 <= i < |search(query)| ==> Contains(sent[0].content, search(query)[i]))
      && (params.jsonMode ==> sent[1] == JsonInstruction)
      && run.callerAfter == messages
  {
    var query := Query(messages);
    var outgoing := ComposeRag(query, search(query));
    JsonModeAddsOneSystemTurn(outgoing, params.jsonMode);
  }

  /**
   * Retrieval happens before the alias is looked up: with a valid list
   * and an alias that does not resolve, the retriever was still asked and
   * the envelope reports the configuration problem.
   */
  lemma RetrievalPrecedesResolution(
    messages: seq<Message>, alias: string, params: Params,
    search: string -> seq<string>, config: Option<ConfigDoc>, respond: Request -> Outcome,
    requestId: string, latencyMs: int)
    requires ValidForRag(messages)
    requires !Resolve(config, alias).Resolved?
    ensures var run := ChatSpec(messages, alias, params, true, search, config, respond, requestId, latencyMs);
      && run.retrieval == Some(messages[|messages| - 1].content)
      && run.request.None?
      && (HasCode(run.envelope, ConfigError) || HasCode(run.envelope, ModelAliasNotFound))
  {
  }

  /**
   * Configuration errors, whether or not retrieval is on: a missing file
   * is CONFIG_ERROR, a file that does not declare the alias completely is
   * MODEL_ALIAS_NOT_FOUND; both carry null provider and model and no
   * completion is attempted.
   */
  lemma ConfigErrorsMap(
    messages: seq<Message>, alias: string, params: Params, useRag: bool,
    search: string -> seq<string>, config: Option<ConfigDoc>, respond: Request -> Outcome,
    requestId: string, latencyMs: int)
    requires !useRag || ValidForRag(messages)
    ensures var run := ChatSpec(messages, alias, params, useRag, search, config, respond, requestId, latencyMs);
      && (config.None? ==> HasCode(run.envelope, ConfigError))
      && (config.Some? && (forall p, m :: !Declares(config, alias, p, m)) ==> HasCode(run.envelope, ModelAliasNotFound))
      && (!Resolve(config, alias).Resolved? ==>
            run.envelope.provider.Null? && run.envelope.model.Null? && run.request.None? && run.configRead)
  {
  }

  /**
   * Without retrieval the caller's turns go out unchanged, in json mode
   * with the instruction appended; and because the outgoing list is the
   * caller's own list, the caller's list afterwards is exactly what was
   * sent.
   */
  lemma PassThroughSharesCallerList(
    messages: seq<Message>, alias: string, params: Params,
    search: string -> seq<string>, config: Option<ConfigDoc>, respond: Request -> Outcome,
    requestId: string, latencyMs: int)
    requires Resolve(config, alias).Resolved?
    ensures var run := ChatSpec(messages, alias, params, false, search, config, respond, requestId, latencyMs);
      && run.retrieval.None?
      && run.request.Some?
      && run.request.value.messages[..|messages|] == messages
      && |run.request.value.messages| == |messages| + (if params.jsonMode then 1 else 0)
      && (params.jsonMode ==> run.request.value.messages[|messages|] == JsonInstruction)
      && CountRole(run.request.value.messages, SystemRole)
           == CountRole(messages, SystemRole) + (if params.jsonMode then 1 else 0)
      && run.callerAfter == run.request.value.messages
      && (run.callerAfter == messages <==> !params.jsonMode)
  {
    JsonModeAddsOneSystemTurn(messages, params.jsonMode);
    if params.jsonMode {
      assert |WithJsonInstruction(messages, true)| != |messages|;
    }
  }

  /**
   * The request goes to `"{provider}/{model}"` of the alias with the
   * caller's parameters unchanged; a failed call reports that configured
   * pair, with TIMEOUT_ERROR, AUTH_ERROR or PROVIDER_ERROR.
   */
  lemma RequestUsesResolvedAlias(
    messages: seq<Message>, alias: string, params: Params, useRag: bool,
    search: string -> seq<string>, config: Option<ConfigDoc>, respond: Request -> Outcome,
    requestId: string, latencyMs: int, p: string, m: string)
    requires !useRag || ValidForRag(messages)
    requires Declares(config, alias, p, m)
    ensures var run := ChatSpec(messages, alias, params, useRag, search, config, respond, requestId, latencyMs);
      && run.request.Some?
      && var req := run.request.value;
      && req.model == p + "/" + m
      && req.temperature == params.temperature && req.topP == params.topP
      && req.maxTokens == params.maxTokens && req.seed == params.seed
      && req.stream == params.stream && req.timeout == params.timeout
      && (req.responseFormat == Some(JsonObjectFormat) <==> params.jsonMode)
      && (!Extractable(respond(req)) ==>
            && run.envelope.provider == Val(p) && run.envelope.model == Val(m)
            && (respond(req).TimeoutRaised? <==> HasCode(run.envelope, TimeoutError))
            && (respond(req).AuthRaised? <==> HasCode(run.envelope, AuthError)))
  {
    assert Resolve(config, alias) == Resolved(p, m);
  }

  /**
   * When the provider reports the very identifier it was asked for, the
   * envelope names the configured provider (provided its name has no '/')
   * and reports the identifier as the model.
   */
  lemma SuccessNamesConfiguredProvider(
    messages: seq<Message>, alias: string, params: Params, useRag: bool,
    search: string -> seq<string>, config: Option<ConfigDoc>, respond: Request -> Outcome,
    requestId: string, latencyMs: int, p: string, m: string)
    requires !useRag || ValidForRag(messages)
    requires Declares(config, alias, p, m) && '/' !in p
    requires var run := ChatSpec(messages, alias, params, useRag, search, config, respond, requestId, latencyMs);
      run.request.Some? && Extractable(respond(run.request.value))
      && respond(run.request.value).model == run.request.value.model
    ensures var run := ChatSpec(messages, alias, params, useRag, search, config, respond, requestId, latencyMs);
      && run.envelope.provider == Val(p)
      && run.envelope.model == Val(p + "/" + m)
      && run.envelope.costEstimated.Null?
  {
    assert Resolve(config, alias) == Resolved(p, m);
    BeforeFirstSlashOfJoined(p, m);
  }
}
