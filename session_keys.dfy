/** The board-scoped session keys whose formats `backend/tests/test_session_keys.py`
    fixes: a gateway's main key, a board lead's key and a worker agent's key,
    each built from an id alone. The module that implements them is not part
    of this model; the definitions below are the formats the tests assert. */
module SessionKeys {
  import opened Models
  import OpenClawShared

  /** `gateway_main_session_key`: the gateway identity's key. */
  function GatewayMainSessionKey(gatewayId: Id): (r: string)
    ensures |r| == |OpenClawShared.GatewayAgentPrefix| + |gatewayId| + |OpenClawShared.GatewayAgentSuffix|
    ensures r[..|OpenClawShared.GatewayAgentPrefix|] == OpenClawShared.GatewayAgentPrefix
    ensures r[|OpenClawShared.GatewayAgentPrefix|..|OpenClawShared.GatewayAgentPrefix| + |gatewayId|] == gatewayId
  {
    OpenClawShared.SessionKeyForIdParts(gatewayId);
    OpenClawShared.SessionKeyForId(gatewayId)
  }

  /** `board_lead_session_key`: `agent:lead-<board id>:main`. */
  function BoardLeadSessionKey(boardId: Id): (r: string)
    ensures |r| == 16 + |boardId| && r[..11] == "agent:lead-" && r[11..|r| - 5] == boardId && r[|r| - 5..] == ":main"
  {
    "agent:lead-" + boardId + ":main"
  }

  /** `board_agent_session_key`: `agent:mc-<agent id>:main`. */
  function BoardAgentSessionKey(agentId: Id): (r: string)
    ensures |r| == 14 + |agentId| && r[..9] == "agent:mc-" && r[9..|r| - 5] == agentId && r[|r| - 5..] == ":main"
  {
    "agent:mc-" + agentId + ":main"
  }

  /** `board_scoped_session_key`: the board's lead key for a lead, the
      agent's own key otherwise. */
  function BoardScopedSessionKey(agentId: Id, boardId: Id, isBoardLead: bool): (r: string)
    ensures |r| == if isBoardLead then 16 + |boardId| else 14 + |agentId|
    ensures isBoardLead ==> r[..11] == "agent:lead-" && r[11..|r| - 5] == boardId
    ensures !isBoardLead ==> r[..9] == "agent:mc-" && r[9..|r| - 5] == agentId
  {
    if isBoardLead then BoardLeadSessionKey(boardId) else BoardAgentSessionKey(agentId)
  }

  /** The equalities of the five tests, for every id. The lemma only
      restates the key definitions: its worth is that the tests' concrete
      expectations hold for all ids, not just the ones the tests pick. */
  lemma SessionKeyTestEqualities(gatewayId: Id, boardId: Id, agentId: Id)
    ensures GatewayMainSessionKey(gatewayId) == OpenClawShared.SessionKeyForId(gatewayId)
    ensures BoardLeadSessionKey(boardId) == "agent:lead-" + boardId + ":main"
    ensures BoardAgentSessionKey(agentId) == "agent:mc-" + agentId + ":main"
    ensures BoardScopedSessionKey(agentId, boardId, true) == BoardLeadSessionKey(boardId)
    ensures BoardScopedSessionKey(agentId, boardId, false) == BoardAgentSessionKey(agentId)
  {
  }

  /** A lead key and a worker key never coincide: they differ in the
      seventh character (`l` against `m`). */
  lemma LeadKeyIsNotWorkerKey(boardId: Id, agentId: Id)
    ensures BoardLeadSessionKey(boardId) != BoardAgentSessionKey(agentId)
  {
    assert BoardLeadSessionKey(boardId)[6] == 'l';
    assert BoardAgentSessionKey(agentId)[6] == 'm';
  }

  /** The id sits between the fixed prefix and `:main`. */
  lemma KeyParts(prefix: string, id: Id)
    ensures (prefix + id + ":main")[|prefix|..|prefix| + |id|] == id
  {
    assert prefix + id + ":main" == prefix + (id + ":main");
  }

  /** Each format is injective: a key names one board, or one agent. */
  lemma BoardKeysInjective(b1: Id, b2: Id, a1: Id, a2: Id)
    ensures BoardLeadSessionKey(b1) == BoardLeadSessionKey(b2) <==> b1 == b2
    ensures BoardAgentSessionKey(a1) == BoardAgentSessionKey(a2) <==> a1 == a2
  {
    KeyParts("agent:lead-", b1);
    KeyParts("agent:lead-", b2);
    KeyParts("agent:mc-", a1);
    KeyParts("agent:mc-", a2);
  }

  /** A scoped key tells the role, and the lead's board or the worker's id:
      two scoped keys are equal only for the same role and the same owner. */
  lemma ScopedKeyDeterminesOwner(a1: Id, b1: Id, lead1: bool, a2: Id, b2: Id, lead2: bool)
    requires BoardScopedSessionKey(a1, b1, lead1) == BoardScopedSessionKey(a2, b2, lead2)
    ensures lead1 == lead2
    ensures lead1 ==> b1 == b2
    ensures !lead1 ==> a1 == a2
  {
    if lead1 != lead2 {
      if lead1 {
        LeadKeyIsNotWorkerKey(b1, a2);
      } else {
        LeadKeyIsNotWorkerKey(b2, a1);
      }
    }
    BoardKeysInjective(b1, b2, a1, a2);
  }
}
