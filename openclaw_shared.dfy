/** The gateway helpers of `backend/app/services/openclaw/shared.py`: the
    identity of a gateway's main agent, the board-to-gateway configuration
    lookup in its optional and raising forms, ensure-then-send dispatch, and
    trace ids. The gateway's answers to `ensure_session` and `send_message`
    are inputs; `uuid4().hex` is the `hexToken` parameter. */
module OpenClawShared {
  import opened Common
  import opened Models

  /** `_GATEWAY_AGENT_PREFIX`, `_GATEWAY_AGENT_SUFFIX` and
      `_GATEWAY_OPENCLAW_AGENT_PREFIX`: their values are defined outside this
      model, so nothing below depends on what they are. */
  const GatewayAgentPrefix: string
  const GatewayAgentSuffix: string
  const GatewayOpenclawAgentPrefix: string

  // ---------------------------------------------------------------------------
  // GatewayAgentIdentity

  function SessionKeyForId(gatewayId: Id): (r: string)
    ensures |r| == |GatewayAgentPrefix| + |gatewayId| + |GatewayAgentSuffix|
  {
    GatewayAgentPrefix + gatewayId + GatewayAgentSuffix
  }

  function SessionKey(gateway: Gateway): (r: string)
    ensures |r| == |GatewayAgentPrefix| + |gateway.id| + |GatewayAgentSuffix|
    ensures r[..|GatewayAgentPrefix|] == GatewayAgentPrefix
    ensures r[|GatewayAgentPrefix|..|GatewayAgentPrefix| + |gateway.id|] == gateway.id
  {
    SessionKeyForIdParts(gateway.id);
    SessionKeyForId(gateway.id)
  }

  function OpenclawAgentIdForId(gatewayId: Id): (r: string)
    ensures |r| == |GatewayOpenclawAgentPrefix| + |gatewayId|
    ensures r[..|GatewayOpenclawAgentPrefix|] == GatewayOpenclawAgentPrefix && r[|GatewayOpenclawAgentPrefix|..] == gatewayId
  {
    GatewayOpenclawAgentPrefix + gatewayId
  }

  function OpenclawAgentId(gateway: Gateway): (r: string)
    ensures |r| == |GatewayOpenclawAgentPrefix| + |gateway.id|
    ensures r[|GatewayOpenclawAgentPrefix|..] == gateway.id
  {
    OpenclawAgentIdForId(gateway.id)
  }

  /** The id sits between the prefix and the suffix of its key. */
  lemma SessionKeyForIdParts(gatewayId: Id)
    ensures SessionKeyForId(gatewayId)[..|GatewayAgentPrefix|] == GatewayAgentPrefix
    ensures SessionKeyForId(gatewayId)[|GatewayAgentPrefix|..|GatewayAgentPrefix| + |gatewayId|] == gatewayId
  {
    var k := SessionKeyForId(gatewayId);
    assert k == GatewayAgentPrefix + (gatewayId + GatewayAgentSuffix);
  }

  /** Distinct gateways never share a main session key, whatever the
      prefix and suffix are. */
  lemma SessionKeyForIdInjective(g: Id, h: Id)
    ensures SessionKeyForId(g) == SessionKeyForId(h) <==> g == h
  {
    if SessionKeyForId(g) == SessionKeyForId(h) {
      SessionKeyForIdParts(g);
      SessionKeyForIdParts(h);
    }
  }

  /** The key of a gateway is the key of its id, so two gateway rows share a
      key exactly when they share an id. */
  lemma SessionKeyOfGateway(a: Gateway, b: Gateway)
    ensures SessionKey(a) == SessionKeyForId(a.id)
    ensures SessionKey(a) == SessionKey(b) <==> a.id == b.id
  {
    SessionKeyForIdInjective(a.id, b.id);
  }

  /** Distinct gateways never share an agent id. */
  lemma OpenclawAgentIdInjective(a: Gateway, b: Gateway)
    ensures OpenclawAgentId(a) == OpenclawAgentIdForId(a.id)
    ensures OpenclawAgentId(a) == OpenclawAgentId(b) <==> a.id == b.id
  {
    if OpenclawAgentId(a) == OpenclawAgentId(b) {
      assert OpenclawAgentId(a)[|GatewayOpenclawAgentPrefix|..] == a.id;
      assert OpenclawAgentId(b)[|GatewayOpenclawAgentPrefix|..] == b.id;
    }
  }

  // ---------------------------------------------------------------------------
  // Board to gateway configuration

  /** `GatewayClientConfig`: where and how to reach a gateway. */
  datatype GatewayConfig = GatewayConfig(url: string, token: Option<string>)

  /** The gateway row a board points at, when the board has one and the row
      exists (`Gateway.objects.by_id(...).first()`). */
  function BoardGateway(gateways: map<Id, Gateway>, board: Board): Option<Gateway>
  {
    if board.gatewayId.Some? && board.gatewayId.value in gateways then Some(gateways[board.gatewayId.value]) else None
  }

  /** `optional_gateway_config_for_board`: a configuration only for a board
      whose gateway exists and has a url. */
  function OptionalGatewayConfigForBoard(gateways: map<Id, Gateway>, board: Board): (r: Option<GatewayConfig>)
    ensures r.Some? <==> board.gatewayId.Some? && board.gatewayId.value in gateways && gateways[board.gatewayId.value].url != ""
    ensures r.Some? ==> r.value.url != ""
  {
    if board.gatewayId.None? then None
    else
      var gateway := BoardGateway(gateways, board);
      if gateway.None? || gateway.value.url == "" then None
      else Some(GatewayConfig(gateway.value.url, gateway.value.token))
  }

  const NotAttachedMessage: string := "Board is not attached to a gateway"
  const NotConfiguredMessage: string := "Gateway is not configured for this board"

  /** `require_gateway_config_for_board`: the gateway and its configuration,
      or a 422 that says which of the two steps failed. */
  function RequireGatewayConfigForBoard(gateways: map<Id, Gateway>, board: Board): (r: Result<(Gateway, GatewayConfig), HttpError>)
    ensures r.Err? ==> r.error.status == Unprocessable
    ensures board.gatewayId.None? ==> r == Err(HttpError(Unprocessable, Text(NotAttachedMessage)))
    ensures r.Ok? ==> board.gatewayId.Some? && board.gatewayId.value in gateways && r.value.0.url != ""
    ensures r.Ok? ==> r.value.0 == gateways[board.gatewayId.value]
                      && r.value.1 == GatewayConfig(r.value.0.url, r.value.0.token)
  {
    if board.gatewayId.None? then Err(HttpError(Unprocessable, Text(NotAttachedMessage)))
    else
      var gateway := BoardGateway(gateways, board);
      if gateway.None? || gateway.value.url == "" then Err(HttpError(Unprocessable, Text(NotConfiguredMessage)))
      else Ok((gateway.value, GatewayConfig(gateway.value.url, gateway.value.token)))
  }

  /** The two resolvers agree: the optional one gives nothing exactly when
      the raising one raises, and otherwise both give the same configuration. */
  lemma GatewayConfigResolversAgree(gateways: map<Id, Gateway>, board: Board)
    ensures OptionalGatewayConfigForBoard(gateways, board).None? <==> RequireGatewayConfigForBoard(gateways, board).Err?
    ensures RequireGatewayConfigForBoard(gateways, board).Ok? ==>
      OptionalGatewayConfigForBoard(gateways, board) == Some(RequireGatewayConfigForBoard(gateways, board).value.1)
  {
  }

  /** A board with a gateway id that does not resolve to a usable gateway
      gets the second message, never the first. */
  lemma RequireGatewayConfigMessages(gateways: map<Id, Gateway>, board: Board)
    ensures RequireGatewayConfigForBoard(gateways, board).Err? && board.gatewayId.Some? ==>
      RequireGatewayConfigForBoard(gateways, board).error == HttpError(Unprocessable, Text(NotConfiguredMessage))
  {
  }

  // ---------------------------------------------------------------------------
  // Ensure-then-send

  /** One call made into the gateway. */
  datatype GatewayCall =
    | EnsureSession(sessionKey: string, config: GatewayConfig, sessionLabel: string)
    | SendMessage(message: string, sessionKey: string, config: GatewayConfig, deliver: bool)

  /** `send_gateway_agent_message`: `ensure_session`, then `send_message`;
      the first transport error is raised and nothing after it runs.
      `ensureReply` and `sendReply` are what the gateway does with each call. */
  method SendGatewayAgentMessage(sessionKey: string, config: GatewayConfig, agentName: string, message: string, deliver: bool,
                                 ensureReply: GatewayReply<()>, sendReply: GatewayReply<()>)
    returns (calls: seq<GatewayCall>, outcome: GatewayReply<()>)
    ensures |calls| >= 1 && calls[0] == EnsureSession(sessionKey, config, agentName)
    ensures ensureReply.Raised? ==> calls == [calls[0]] && outcome == ensureReply
    ensures ensureReply.Replied? ==>
      calls == [calls[0], SendMessage(message, sessionKey, config, deliver)] && outcome == sendReply
  {
    calls := [EnsureSession(sessionKey, config, agentName)];
    if ensureReply.Raised? {
      outcome := ensureReply;
      return;
    }
    calls := calls + [SendMessage(message, sessionKey, config, deliver)];
    outcome := sendReply;
  }

  /** `send_gateway_agent_message_safe`: the same calls, with the transport
      error returned instead of raised; nothing is returned exactly when both
      calls went through. */
  method SendGatewayAgentMessageSafe(sessionKey: string, config: GatewayConfig, agentName: string, message: string, deliver: bool,
                                     ensureReply: GatewayReply<()>, sendReply: GatewayReply<()>)
    returns (calls: seq<GatewayCall>, error: Option<string>)
    ensures error.None? <==> ensureReply.Replied? && sendReply.Replied?
    ensures ensureReply.Raised? ==> error == Some(ensureReply.message)
    ensures ensureReply.Replied? && sendReply.Raised? ==> error == Some(sendReply.message)
    ensures |calls| >= 1 && calls[0] == EnsureSession(sessionKey, config, agentName)
    ensures |calls| == 2 <==> ensureReply.Replied?
    ensures |calls| <= 2 && (|calls| == 2 ==> calls[1] == SendMessage(message, sessionKey, config, deliver))
  {
    var outcome;
    calls, outcome := SendGatewayAgentMessage(sessionKey, config, agentName, message, deliver, ensureReply, sendReply);
    match outcome
    case Replied(_) => error := None;
    case Raised(m) => error := Some(m);
  }

  // ---------------------------------------------------------------------------
  // Trace ids

  /** `resolve_trace_id`: the correlation id without surrounding whitespace
      when anything is left, otherwise `<prefix>:` and the first twelve
      characters of a fresh token. */
  function ResolveTraceId(correlationId: Option<string>, prefix: string, hexToken: string): (r: string)
    requires IsHexToken(hexToken)
    ensures r != []
  {
    var normalized := Strip(if correlationId.Some? then correlationId.value else "", Whitespace);
    if normalized != "" then normalized else prefix + ":" + hexToken[..12]
  }

  /** A usable correlation id is kept (stripped), whatever token is drawn,
      and resolving the result again changes nothing. */
  lemma ResolveTraceIdKeepsCorrelation(correlationId: string, prefix: string, hexToken: string, otherToken: string)
    requires IsHexToken(hexToken) && IsHexToken(otherToken)
    requires Strip(correlationId, Whitespace) != ""
    ensures ResolveTraceId(Some(correlationId), prefix, hexToken) == Strip(correlationId, Whitespace)
    ensures ResolveTraceId(Some(correlationId), prefix, hexToken) == ResolveTraceId(Some(correlationId), prefix, otherToken)
    ensures var t := ResolveTraceId(Some(correlationId), prefix, hexToken);
      ResolveTraceId(Some(t), prefix, otherToken) == t
  {
    KeptCorrelation(correlationId, prefix, hexToken);
    KeptCorrelation(correlationId, prefix, otherToken);
    StripIdempotent(correlationId, Whitespace);
    KeptCorrelation(Strip(correlationId, Whitespace), prefix, otherToken);
  }

  /** One resolution of a usable correlation id. */
  lemma KeptCorrelation(correlationId: string, prefix: string, hexToken: string)
    requires IsHexToken(hexToken) && Strip(correlationId, Whitespace) != ""
    ensures ResolveTraceId(Some(correlationId), prefix, hexToken) == Strip(correlationId, Whitespace)
  {
  }

  /** The fallback trace id `<prefix>:<twelve hex digits>`. */
  lemma ScopedTokenShape(prefix: string, hexToken: string)
    requires IsHexToken(hexToken)
    ensures var r := prefix + ":" + hexToken[..12];
      && |r| == |prefix| + 13
      && r[..|prefix|] == prefix && r[|prefix|] == ':'
      && forall i :: |prefix| < i < |r| ==> ('0' <= r[i] <= '9' || 'a' <= r[i] <= 'f')
  {
    var r := prefix + ":" + hexToken[..12];
    forall i | |prefix| < i < |r| ensures '0' <= r[i] <= '9' || 'a' <= r[i] <= 'f' {
      assert r[i] == hexToken[i - |prefix| - 1];
    }
  }

  /** Without a usable correlation id the trace id is the scoped token
      described by `ScopedTokenShape`. */
  lemma ResolveTraceIdFallback(correlationId: Option<string>, prefix: string, hexToken: string)
    requires IsHexToken(hexToken)
    requires correlationId.None? || Strip(correlationId.value, Whitespace) == ""
    ensures ResolveTraceId(correlationId, prefix, hexToken) == prefix + ":" + hexToken[..12]
  {
    if correlationId.None? {
      assert Strip("", Whitespace) == "";
    }
  }
}
