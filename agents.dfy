/** The agent lifecycle endpoints (`backend/app/api/agents.py`): session keys
    derived from agent names, read-time liveness, and create / update /
    heartbeat / heartbeat-or-create / delete over an agent table and an
    append-only activity log. The gateway's `sessions.patch` answer and the
    outcome of the provisioning message are inputs; `uuid4().hex` is the
    `hexToken` parameter and `datetime.utcnow()` the `now` parameter. */
module Agents {
  import opened Common
  import opened Slugs
  import opened Models

  /** `OFFLINE_AFTER`: ten minutes, in microseconds (the clock's resolution). */
  const OfflineAfter: int := 10 * 60 * 1000000

  const AgentSessionPrefix: string := "agent"

  // ---------------------------------------------------------------------------
  // Session keys

  /** A `uuid4().hex` token is itself a finished slug. */
  lemma HexTokenIsSlug(t: string)
    requires IsHexToken(t)
    ensures IsSlug(t)
  {
    forall i | 0 <= i < |t| ensures IsSlugChar(t[i]) {
    }
  }

  /** `_slugify`: the slug of the value, or the random token when it is empty. */
  function Slugify(value: string, hexToken: string): (r: string)
    requires IsHexToken(hexToken)
    ensures IsSlug(r)
  {
    var slug := SlugCore(value);
    if slug != [] then SlugCoreShape(value); slug else HexTokenIsSlug(hexToken); hexToken
  }

  /** The agent slug is the name's lower-cased alphanumeric groups joined
      by single dashes, or the random token when the name has none. */
  lemma SlugifyMeaning(value: string, hexToken: string)
    requires IsHexToken(hexToken)
    ensures Groups(Lower(value)) == [] ==> Slugify(value, hexToken) == hexToken
    ensures Groups(Lower(value)) != [] ==> Slugify(value, hexToken) == JoinDash(Groups(Lower(value)))
  {
    SlugCoreGroups(value);
    if Groups(Lower(value)) != [] {
      JoinDashNonEmpty(Groups(Lower(value)));
    }
  }

  /** Slugifying an agent slug gives it back, whatever token is drawn. */
  lemma SlugifyIdempotent(value: string, hexToken: string, otherToken: string)
    requires IsHexToken(hexToken) && IsHexToken(otherToken)
    ensures Slugify(Slugify(value, hexToken), otherToken) == Slugify(value, hexToken)
  {
    SlugCoreFixpoint(Slugify(value, hexToken));
  }

  /** The three parts of `p + m + q` can be sliced back out. */
  lemma Affixes(p: string, m: string, q: string)
    ensures (p + m + q)[..|p|] == p
    ensures (p + m + q)[|p|..|p| + |m|] == m
    ensures (p + m + q)[|p| + |m|..] == q
  {
  }

  /** Reads the slug back out of an `agent:<slug>:main` key. */
  function SessionKeySlug(key: string): Option<string>
  {
    if |key| >= 11 && key[..6] == AgentSessionPrefix + ":" && key[|key| - 5..] == ":main"
    then Some(key[6..|key| - 5])
    else None
  }

  /** `_build_session_key`: `agent:<slug>:main`; the slug can be read back. */
  function BuildSessionKey(agentName: string, hexToken: string): (r: string)
    requires IsHexToken(hexToken)
    ensures SessionKeySlug(r) == Some(Slugify(agentName, hexToken))
  {
    var slug := Slugify(agentName, hexToken);
    var key := AgentSessionPrefix + ":" + slug + ":main";
    Affixes(AgentSessionPrefix + ":", slug, ":main");
    key
  }

  /** Two agent names share a session key exactly when they share a slug. */
  lemma SessionKeyDeterminedBySlug(a: string, ta: string, b: string, tb: string)
    requires IsHexToken(ta) && IsHexToken(tb)
    ensures BuildSessionKey(a, ta) == BuildSessionKey(b, tb) <==> Slugify(a, ta) == Slugify(b, tb)
  {
    if BuildSessionKey(a, ta) == BuildSessionKey(b, tb) {
      assert SessionKeySlug(BuildSessionKey(a, ta)) == SessionKeySlug(BuildSessionKey(b, tb));
    }
  }

  /** `_ensure_gateway_session`: the key, and the error text when
      `sessions.patch` raised. The key does not depend on the reply. */
  function EnsureGatewaySession(agentName: string, hexToken: string, patch: GatewayReply<()>): (r: (string, Option<string>))
    requires IsHexToken(hexToken)
    ensures r.0 == BuildSessionKey(agentName, hexToken)
    ensures r.1.Some? <==> patch.Raised?
    ensures patch.Raised? ==> r.1.value == patch.message
  {
    var key := BuildSessionKey(agentName, hexToken);
    match patch
    case Replied(_) => (key, None)
    case Raised(message) => (key, Some(message))
  }

  // ---------------------------------------------------------------------------
  // Liveness

  /** Silent for strictly more than `OfflineAfter` since the last heartbeat. */
  predicate IsStale(agent: Agent, now: int)
  {
    agent.lastSeenAt.Some? && now - agent.lastSeenAt.value > OfflineAfter
  }

  /** `_with_computed_status`: the agent as shown to a reader at time `now`. */
  function WithComputedStatus(agent: Agent, now: int): (r: Agent)
    ensures r == agent.(status := r.status)
    ensures r.status == "offline" || r.status == agent.status
    ensures r.status != agent.status ==> IsStale(agent, now)
  {
    if IsStale(agent, now) then agent.(status := "offline") else agent
  }

  /** Offline exactly when stale (or already stored as offline); an agent
      never heard from keeps its stored status. */
  lemma ComputedStatusCases(agent: Agent, now: int)
    ensures IsStale(agent, now) ==> WithComputedStatus(agent, now).status == "offline"
    ensures agent.lastSeenAt.None? ==> WithComputedStatus(agent, now) == agent
    ensures agent.lastSeenAt.Some? && now - agent.lastSeenAt.value == OfflineAfter ==> WithComputedStatus(agent, now) == agent
  {
  }

  /** Once shown offline, an agent stays offline as time passes without a
      heartbeat, and the view is idempotent. */
  lemma ComputedStatusMonotone(agent: Agent, now: int, later: int)
    requires now <= later && WithComputedStatus(agent, now).status == "offline"
    ensures WithComputedStatus(agent, later).status == "offline"
    ensures WithComputedStatus(WithComputedStatus(agent, now), now) == WithComputedStatus(agent, now)
  {
  }

  // ---------------------------------------------------------------------------
  // Rows and log entries written by the endpoints

  /** What `send_provisioning_message` did: delivered, or raised either the
      gateway error (`gatewayError`) or any other exception, with its text.
      Both `except` arms log the same entry, so `gatewayError` only records
      which arm ran. */
  datatype ProvisionOutcome = Provisioned | ProvisionRaised(gatewayError: bool, message: string)

  /** An agent has a usable session id (`agent.openclaw_session_id` truthy). */
  predicate HasSession(agent: Agent)
  {
    agent.openclawSessionId.Some? && agent.openclawSessionId.value != ""
  }

  /** `if session_error:` tests truthiness, so an error with an empty text is
      recorded as a created session. */
  function SessionEvent(agent: Agent, error: Option<string>, now: int): (r: Activity)
    ensures r.agentId == Some(agent.id) && r.createdAt == now
    ensures r.eventType == "agent.session.failed" <==> error.Some? && error.value != ""
    ensures r.eventType != "agent.session.failed" ==> r.eventType == "agent.session.created"
  {
    if error.Some? && error.value != "" then
      Activity("agent.session.failed", "Session sync failed for " + agent.name + ": " + error.value, Some(agent.id), now)
    else
      Activity("agent.session.created", "Session created for " + agent.name + ".", Some(agent.id), now)
  }

  /** `_record_provisioning_failure`. */
  function ProvisionFailure(agent: Agent, error: string, now: int): Activity
  {
    Activity("agent.provision.failed", "Provisioning message failed: " + error, Some(agent.id), now)
  }

  /** The log entries of the `try: send_provisioning_message` block: both
      `except` arms record the same failure. */
  function ProvisionEvents(agent: Agent, outcome: ProvisionOutcome, now: int): (r: seq<Activity>)
    ensures |r| <= 1 && (r != [] <==> outcome.ProvisionRaised?)
    ensures forall e :: e in r ==> e.eventType == "agent.provision.failed" && e.agentId == Some(agent.id) && e.createdAt == now
  {
    match outcome
    case Provisioned => []
    case ProvisionRaised(_, message) => [ProvisionFailure(agent, message, now)]
  }

  /** `_record_heartbeat`. */
  function HeartbeatEvent(agent: Agent, now: int): Activity
  {
    Activity("agent.heartbeat", "Heartbeat received from " + agent.name + ".", Some(agent.id), now)
  }

  /** The row after a heartbeat: the reported status when it is non-empty,
      and `last_seen_at` and `updated_at` set to now. */
  function Beat(agent: Agent, status: Option<string>, now: int): (r: Agent)
    ensures r == agent.(status := r.status, lastSeenAt := Some(now), updatedAt := now)
    ensures r.status == (if status.Some? && status.value != "" then status.value else agent.status)
  {
    agent.(status := if status.Some? && status.value != "" then status.value else agent.status,
           lastSeenAt := Some(now), updatedAt := now)
  }

  /** A heartbeat is never undone by the liveness view of the same instant,
      and only status, `last_seen_at` and `updated_at` change. */
  lemma BeatIsLive(agent: Agent, status: Option<string>, now: int)
    ensures WithComputedStatus(Beat(agent, status, now), now) == Beat(agent, status, now)
    ensures Beat(agent, status, now).status == (if status.Some? && status.value != "" then status.value else agent.status)
    ensures Beat(agent, status, now).(status := agent.status, lastSeenAt := agent.lastSeenAt, updatedAt := agent.updatedAt) == agent
  {
  }

  /** The row `heartbeat_or_create_agent` creates for an unknown name. */
  function CreatedOnHeartbeat(payload: AgentHeartbeatCreate, newId: Id, hexToken: string, now: int): (r: Agent)
    requires IsHexToken(hexToken)
    ensures r.id == newId && r.name == payload.name && r.lastSeenAt.None?
    ensures r.status != "" && (payload.status.Some? && payload.status.value != "" ==> r.status == payload.status.value)
    ensures r.openclawSessionId.Some? && SessionKeySlug(r.openclawSessionId.value) == Some(Slugify(payload.name, hexToken))
  {
    Agent(newId, payload.name, if payload.status.Some? && payload.status.value != "" then payload.status.value else "online",
          None, false, None, Some(BuildSessionKey(payload.name, hexToken)), now)
  }

  // ---------------------------------------------------------------------------
  // Table lookups

  ghost predicate IdsUnique(agents: seq<Agent>)
  {
    forall i, j :: 0 <= i < j < |agents| ==> agents[i].id != agents[j].id
  }

  lemma UniqueAfterAppend(agents: seq<Agent>, a: Agent)
    requires IdsUnique(agents) && forall j :: 0 <= j < |agents| ==> agents[j].id != a.id
    ensures IdsUnique(agents + [a])
  {
  }

  lemma UniqueAfterUpdate(agents: seq<Agent>, i: nat, a: Agent)
    requires IdsUnique(agents) && i < |agents| && a.id == agents[i].id
    ensures IdsUnique(agents[i := a])
  {
  }

  /** `session.get(Agent, agent_id)`: the position of the row with that id. */
  function IndexOfId(agents: seq<Agent>, id: Id): (r: Option<nat>)
    ensures r.Some? ==> r.value < |agents| && agents[r.value].id == id
    ensures r.None? ==> forall i :: 0 <= i < |agents| ==> agents[i].id != id
  {
    if agents == [] then None
    else if agents[0].id == id then Some(0)
    else match IndexOfId(agents[1..], id)
      case None => None
      case Some(k) => Some(k + 1)
  }

  /** `select(Agent).where(Agent.name == name).first()`, in table order. */
  function FirstByName(agents: seq<Agent>, name: string): (r: Option<nat>)
    ensures r.Some? ==> r.value < |agents| && agents[r.value].name == name
    ensures r.Some? ==> forall j :: 0 <= j < r.value ==> agents[j].name != name
    ensures r.None? ==> forall i :: 0 <= i < |agents| ==> agents[i].name != name
  {
    if agents == [] then None
    else if agents[0].name == name then Some(0)
    else match FirstByName(agents[1..], name)
      case None => None
      case Some(k) => Some(k + 1)
  }

  /** The fields of `AgentCreate`; the rest take the row's defaults. */
  datatype AgentCreate = AgentCreate(name: string, status: string, boardId: Option<Id>)

  /** The fields of `AgentHeartbeatCreate`. */
  datatype AgentHeartbeatCreate = AgentHeartbeatCreate(name: string, status: Option<string>)

  /** One `key, value` item of `AgentUpdate.model_dump(exclude_unset=True)`. */
  datatype AgentFieldUpdate = SetName(name: string) | SetStatus(status: string) | SetBoard(boardId: Option<Id>)

  /** Which attribute an update item sets. */
  datatype AgentField = NameField | StatusField | BoardField

  function FieldOf(u: AgentFieldUpdate): AgentField
  {
    match u
    case SetName(_) => NameField
    case SetStatus(_) => StatusField
    case SetBoard(_) => BoardField
  }

  /** The items come from a dict, so each attribute appears at most once. */
  ghost predicate DistinctFields(updates: seq<AgentFieldUpdate>)
  {
    forall i, j :: 0 <= i < j < |updates| ==> FieldOf(updates[i]) != FieldOf(updates[j])
  }

  ghost predicate Holds(agent: Agent, u: AgentFieldUpdate)
  {
    match u
    case SetName(name) => agent.name == name
    case SetStatus(status) => agent.status == status
    case SetBoard(boardId) => agent.boardId == boardId
  }

  ghost function Touched(updates: seq<AgentFieldUpdate>): set<AgentField>
  {
    set u | u in updates :: FieldOf(u)
  }

  lemma TouchedSnoc(updates: seq<AgentFieldUpdate>, u: AgentFieldUpdate)
    ensures Touched(updates + [u]) == Touched(updates) + {FieldOf(u)}
  {
    assert forall v :: v in updates + [u] <==> v in updates || v == u;
  }

  /** `after` is `before` with exactly the listed attributes set. */
  ghost predicate AppliesUpdates(before: Agent, updates: seq<AgentFieldUpdate>, after: Agent)
  {
    && (forall u :: u in updates ==> Holds(after, u))
    && (NameField !in Touched(updates) ==> after.name == before.name)
    && (StatusField !in Touched(updates) ==> after.status == before.status)
    && (BoardField !in Touched(updates) ==> after.boardId == before.boardId)
    && after.(name := before.name, status := before.status, boardId := before.boardId) == before
  }

  /** `setattr(agent, key, value)` for one update item: that attribute is
      set and nothing else changes. */
  function SetAttr(agent: Agent, u: AgentFieldUpdate): (r: Agent)
    ensures Holds(r, u)
    ensures FieldOf(u) != NameField ==> r.name == agent.name
    ensures FieldOf(u) != StatusField ==> r.status == agent.status
    ensures FieldOf(u) != BoardField ==> r.boardId == agent.boardId
    ensures r.(name := agent.name, status := agent.status, boardId := agent.boardId) == agent
  {
    match u
    case SetName(name) => agent.(name := name)
    case SetStatus(status) => agent.(status := status)
    case SetBoard(boardId) => agent.(boardId := boardId)
  }

  /** Setting one attribute keeps an update of another attribute in force. */
  lemma SetAttrKeeps(agent: Agent, u: AgentFieldUpdate, v: AgentFieldUpdate)
    requires Holds(agent, v) && FieldOf(u) != FieldOf(v)
    ensures Holds(SetAttr(agent, u), v)
  {
  }

  /** The `for key, value in updates.items(): setattr(agent, key, value)` loop. */
  method ApplyAgentUpdates(agent: Agent, updates: seq<AgentFieldUpdate>) returns (r: Agent)
    requires DistinctFields(updates)
    ensures AppliesUpdates(agent, updates, r)
  {
    r := agent;
    for i := 0 to |updates|
      invariant forall k :: 0 <= k < i ==> Holds(r, updates[k])
      invariant NameField !in Touched(updates[..i]) ==> r.name == agent.name
      invariant StatusField !in Touched(updates[..i]) ==> r.status == agent.status
      invariant BoardField !in Touched(updates[..i]) ==> r.boardId == agent.boardId
      invariant r.(name := agent.name, status := agent.status, boardId := agent.boardId) == agent
    {
      assert updates[..i + 1] == updates[..i] + [updates[i]];
      TouchedSnoc(updates[..i], updates[i]);
      forall k | 0 <= k < i ensures Holds(SetAttr(r, updates[i]), updates[k]) {
        SetAttrKeeps(r, updates[i], updates[k]);
      }
      r := SetAttr(r, updates[i]);
    }
    assert updates[..|updates|] == updates;
    forall u | u in updates ensures Holds(r, u) {
      var k :| 0 <= k < |updates| && updates[k] == u;
    }
  }

  /** Replacing the element just appended is appending the replacement. */
  lemma SnocThenSet(s: seq<Agent>, a: Agent, b: Agent)
    ensures (s + [a])[|s| := b] == s + [b]
  {
  }

  /** Two updates of the same position keep the later one. */
  lemma SetTwice(s: seq<Agent>, i: nat, a: Agent, b: Agent)
    requires i < |s|
    ensures s[i := a][i := b] == s[i := b]
  {
  }

  /** The heartbeat entry names the agent by id and name, which a heartbeat
      does not change. */
  lemma HeartbeatEventOfBeat(agent: Agent, status: Option<string>, now: int)
    ensures HeartbeatEvent(Beat(agent, status, now), now) == HeartbeatEvent(agent, now)
  {
  }

  /** What every path of `heartbeat_or_create_agent` leaves: the agent has
      the name, a session id, was seen now and is shown live. */
  ghost predicate Beaten(r: Agent, name: string, now: int)
  {
    r.name == name && HasSession(r) && r.lastSeenAt == Some(now) && WithComputedStatus(r, now) == r
  }

  lemma BeatenFacts(agent: Agent, status: Option<string>, now: int)
    requires HasSession(agent)
    ensures Beaten(Beat(agent, status, now), agent.name, now)
  {
    BeatIsLive(agent, status, now);
  }

  /** A row carrying the derived session key has a session. */
  lemma SessionKeyIsSession(agent: Agent, name: string, hexToken: string)
    requires IsHexToken(hexToken)
    requires agent.openclawSessionId == Some(BuildSessionKey(name, hexToken))
    ensures HasSession(agent)
  {
    assert |BuildSessionKey(name, hexToken)| >= 11;
  }

  /** Appending entries keeps the old log as a prefix and ends with the last. */
  lemma LogGrows(before: seq<Activity>, a: Activity, mid: seq<Activity>, e: Activity)
    ensures |before + [a] + mid + [e]| > |before|
    ensures (before + [a] + mid + [e])[..|before|] == before
    ensures (before + [a] + mid + [e])[|before + [a] + mid + [e]| - 1] == e
  {
    assert (before + [a] + mid + [e])[..|before|] == before;
  }

  lemma LogGrowsByOne(before: seq<Activity>, e: Activity)
    ensures |before + [e]| > |before|
    ensures (before + [e])[..|before|] == before
    ensures (before + [e])[|before|] == e
  {
    assert (before + [e])[..|before|] == before;
  }

  lemma AppendedIsIn(s: seq<Agent>, a: Agent)
    ensures a in s + [a]
  {
    assert (s + [a])[|s|] == a;
  }

  lemma UpdatedIsIn(s: seq<Agent>, i: nat, a: Agent)
    requires i < |s|
    ensures a in s[i := a]
  {
    assert s[i := a][i] == a;
  }

  // ---------------------------------------------------------------------------
  // The endpoints, over the agent table and the activity log

  class AgentStore {
    var agents: seq<Agent>
    var activity: seq<Activity>

    ghost predicate Valid()
      reads this
    {
      IdsUnique(agents)
    }

    constructor ()
      ensures Valid() && agents == [] && activity == []
    {
      agents := [];
      activity := [];
    }

    /** `list_agents`: every row, as the liveness view shows it. */
    function ListAgents(now: int): (r: seq<Agent>)
      reads this
      ensures |r| == |agents|
      ensures forall i :: 0 <= i < |r| ==> r[i] == WithComputedStatus(agents[i], now)
    {
      var rows := agents;
      seq(|rows|, i requires 0 <= i < |rows| => WithComputedStatus(rows[i], now))
    }

    /** `get_agent`: 404 when the id is unknown. */
    function GetAgent(agentId: Id, now: int): (r: Result<Agent, HttpError>)
      reads this
      ensures r.Err? <==> forall i :: 0 <= i < |agents| ==> agents[i].id != agentId
      ensures r.Err? ==> r.error == HttpError(NotFound, NoDetail)
      ensures r.Ok? ==> r.value.id == agentId && exists i :: 0 <= i < |agents| && r.value == WithComputedStatus(agents[i], now)
    {
      match IndexOfId(agents, agentId)
      case None => Err(HttpError(NotFound, NoDetail))
      case Some(i) => Ok(WithComputedStatus(agents[i], now))
    }

    method Record(e: Activity)
      modifies this
      ensures agents == old(agents) && activity == old(activity) + [e]
    {
      activity := activity + [e];
    }

    /** The `try: await send_provisioning_message(agent)` block. */
    method Provision(agent: Agent, outcome: ProvisionOutcome, now: int)
      modifies this
      ensures agents == old(agents) && activity == old(activity) + ProvisionEvents(agent, outcome, now)
    {
      match outcome
      case Provisioned =>
      case ProvisionRaised(_, message) =>
        Record(ProvisionFailure(agent, message, now));
    }

    /** Lines 163-167 and 237-241: the heartbeat update of row `i`. */
    method Heartbeat(i: nat, status: Option<string>, now: int)
      requires Valid() && i < |agents|
      modifies this
      ensures Valid()
      ensures agents == old(agents)[i := Beat(old(agents)[i], status, now)]
      ensures activity == old(activity) + [HeartbeatEvent(old(agents)[i], now)]
    {
      var agent := agents[i];
      if status.Some? && status.value != "" {
        agent := agent.(status := status.value);
      }
      agent := agent.(lastSeenAt := Some(now), updatedAt := now);
      Record(HeartbeatEvent(agent, now));
      agents := agents[i := agent];
    }

    /** `create_agent`. The row is stored with the derived session key and
        exactly one session entry is logged whatever `sessions.patch` did; a
        failed provisioning message only adds a log entry. */
    method CreateAgent(payload: AgentCreate, newId: Id, hexToken: string, now: int,
                       patch: GatewayReply<()>, provision: ProvisionOutcome) returns (created: Agent)
      requires Valid() && IsHexToken(hexToken)
      requires forall i :: 0 <= i < |agents| ==> agents[i].id != newId
      modifies this
      ensures Valid()
      ensures created == Agent(newId, payload.name, payload.status, payload.boardId, false, None,
                               Some(BuildSessionKey(payload.name, hexToken)), now)
      ensures agents == old(agents) + [created]
      ensures activity == old(activity) + [SessionEvent(created, EnsureGatewaySession(payload.name, hexToken, patch).1, now)]
                                        + ProvisionEvents(created, provision, now)
    {
      var agent := Agent(newId, payload.name, payload.status, payload.boardId, false, None, None, now);
      var outcome := EnsureGatewaySession(agent.name, hexToken, patch);
      agent := agent.(openclawSessionId := Some(outcome.0));
      agents := agents + [agent];
      LogSessionAndProvision(agent, outcome.1, provision, now);
      created := agent;
    }

    /** `update_agent`: 404 for an unknown id; otherwise the listed
        attributes are set, `updated_at` is stamped, and the view is returned. */
    method UpdateAgent(agentId: Id, updates: seq<AgentFieldUpdate>, now: int) returns (r: Result<Agent, HttpError>)
      requires Valid() && DistinctFields(updates)
      modifies this
      ensures Valid() && activity == old(activity)
      ensures IndexOfId(old(agents), agentId).None? ==> r == Err(HttpError(NotFound, NoDetail)) && agents == old(agents)
      ensures IndexOfId(old(agents), agentId).Some? ==>
        var i := IndexOfId(old(agents), agentId).value;
        && |agents| == |old(agents)|
        && (forall j :: 0 <= j < |agents| && j != i ==> agents[j] == old(agents)[j])
        && AppliesUpdates(old(agents)[i], updates, agents[i].(updatedAt := old(agents)[i].updatedAt))
        && agents[i].updatedAt == now
        && r == Ok(WithComputedStatus(agents[i], now))
    {
      var found := IndexOfId(agents, agentId);
      if found.None? {
        return Err(HttpError(NotFound, NoDetail));
      }
      var i := found.value;
      var agent := ApplyAgentUpdates(agents[i], updates);
      agent := agent.(updatedAt := now);
      agents := agents[i := agent];
      r := Ok(WithComputedStatus(agent, now));
    }

    /** `heartbeat_agent`: 404 for an unknown id; otherwise the heartbeat
        update and one `agent.heartbeat` entry. The agent is shown live. */
    method HeartbeatAgent(agentId: Id, status: Option<string>, now: int) returns (r: Result<Agent, HttpError>)
      requires Valid()
      modifies this
      ensures Valid()
      ensures IndexOfId(old(agents), agentId).None? ==>
        r == Err(HttpError(NotFound, NoDetail)) && agents == old(agents) && activity == old(activity)
      ensures IndexOfId(old(agents), agentId).Some? ==>
        var i := IndexOfId(old(agents), agentId).value;
        && agents == old(agents)[i := Beat(old(agents)[i], status, now)]
        && activity == old(activity) + [HeartbeatEvent(old(agents)[i], now)]
        && r == Ok(agents[i])
    {
      var found := IndexOfId(agents, agentId);
      if found.None? {
        return Err(HttpError(NotFound, NoDetail));
      }
      var i := found.value;
      Heartbeat(i, status, now);
      r := Ok(WithComputedStatus(agents[i], now));
    }

    /** Lines 95-117 (and 188-210, 214-236): the session log entry, then
        the provisioning attempt. */
    method LogSessionAndProvision(agent: Agent, error: Option<string>, provision: ProvisionOutcome, now: int)
      modifies this
      ensures agents == old(agents)
      ensures activity == old(activity) + [SessionEvent(agent, error, now)] + ProvisionEvents(agent, provision, now)
    {
      Record(SessionEvent(agent, error, now));
      Provision(agent, provision, now);
    }

    /** Lines 181-202 and 237-245: an unknown name creates the agent (status
        `payload.status or "online"`), logs its session and provisioning, and
        then records the heartbeat. */
    method HeartbeatNewAgent(payload: AgentHeartbeatCreate, newId: Id, hexToken: string, now: int,
                             patch: GatewayReply<()>, provision: ProvisionOutcome) returns (r: Agent)
      requires Valid() && IsHexToken(hexToken)
      requires forall j :: 0 <= j < |agents| ==> agents[j].id != newId
      modifies this
      ensures Valid()
      ensures r == Beat(CreatedOnHeartbeat(payload, newId, hexToken, now), payload.status, now)
      ensures agents == old(agents) + [r]
      ensures activity == old(activity)
        + [SessionEvent(CreatedOnHeartbeat(payload, newId, hexToken, now), EnsureGatewaySession(payload.name, hexToken, patch).1, now)]
        + ProvisionEvents(CreatedOnHeartbeat(payload, newId, hexToken, now), provision, now)
        + [HeartbeatEvent(r, now)]
    {
      var agent := CreatedOnHeartbeat(payload, newId, hexToken, now);
      var outcome := EnsureGatewaySession(payload.name, hexToken, patch);
      UniqueAfterAppend(agents, agent);
      agents := agents + [agent];
      LogSessionAndProvision(agent, outcome.1, provision, now);
      Heartbeat(|agents| - 1, payload.status, now);
      r := Beat(agent, payload.status, now);
      SnocThenSet(old(agents), agent, r);
      HeartbeatEventOfBeat(agent, payload.status, now);
    }

    /** Lines 211-245: a known agent without a session id gets the derived
        key, its session and provisioning are logged, then the heartbeat. */
    method HeartbeatResync(i: nat, payload: AgentHeartbeatCreate, hexToken: string, now: int,
                           patch: GatewayReply<()>, provision: ProvisionOutcome) returns (r: Agent)
      requires Valid() && IsHexToken(hexToken) && i < |agents|
      modifies this
      ensures Valid()
      ensures r == Beat(old(agents)[i].(openclawSessionId := Some(BuildSessionKey(old(agents)[i].name, hexToken))), payload.status, now)
      ensures agents == old(agents)[i := r]
      ensures activity == old(activity)
        + [SessionEvent(r, EnsureGatewaySession(r.name, hexToken, patch).1, now)]
        + ProvisionEvents(r, provision, now)
        + [HeartbeatEvent(r, now)]
    {
      var outcome := EnsureGatewaySession(agents[i].name, hexToken, patch);
      var agent := agents[i].(openclawSessionId := Some(outcome.0));
      UniqueAfterUpdate(agents, i, agent);
      agents := agents[i := agent];
      LogSessionAndProvision(agent, outcome.1, provision, now);
      Heartbeat(i, payload.status, now);
      r := Beat(agent, payload.status, now);
      SetTwice(old(agents), i, agent, r);
      HeartbeatEventOfBeat(agent, payload.status, now);
      BeatIsLive(agent, payload.status, now);
    }

    /** `heartbeat_or_create_agent`. An unknown name creates the agent; the
        first agent with that name is re-keyed and provisioned when it has no
        session id, and otherwise only updated. Every path ends with the
        heartbeat update and its log entry, and the agent returned is live
        and always has a session id, whatever the gateway did. */
    method HeartbeatOrCreateAgent(payload: AgentHeartbeatCreate, newId: Id, hexToken: string, now: int,
                                  patch: GatewayReply<()>, provision: ProvisionOutcome) returns (r: Agent)
      requires Valid() && IsHexToken(hexToken)
      requires forall j :: 0 <= j < |agents| ==> agents[j].id != newId
      modifies this
      ensures Valid()
      ensures r in agents && Beaten(r, payload.name, now)
      ensures |activity| > |old(activity)| && activity[..|old(activity)|] == old(activity)
      ensures activity[|activity| - 1] == HeartbeatEvent(r, now)
      ensures FirstByName(old(agents), payload.name).None? ==>
        && r == Beat(CreatedOnHeartbeat(payload, newId, hexToken, now), payload.status, now)
        && agents == old(agents) + [r]
        && activity == old(activity)
          + [SessionEvent(CreatedOnHeartbeat(payload, newId, hexToken, now), EnsureGatewaySession(payload.name, hexToken, patch).1, now)]
          + ProvisionEvents(CreatedOnHeartbeat(payload, newId, hexToken, now), provision, now)
          + [HeartbeatEvent(r, now)]
      ensures FirstByName(old(agents), payload.name).Some? ==>
        var i := FirstByName(old(agents), payload.name).value;
        && r.id == old(agents)[i].id
        && agents == old(agents)[i := r]
        && (HasSession(old(agents)[i]) ==>
              r == Beat(old(agents)[i], payload.status, now) && activity == old(activity) + [HeartbeatEvent(r, now)])
        && (!HasSession(old(agents)[i]) ==>
              && r == Beat(old(agents)[i].(openclawSessionId := Some(BuildSessionKey(old(agents)[i].name, hexToken))), payload.status, now)
              && r.openclawSessionId == Some(BuildSessionKey(payload.name, hexToken))
              && activity == old(activity)
                + [SessionEvent(r, EnsureGatewaySession(r.name, hexToken, patch).1, now)]
                + ProvisionEvents(r, provision, now)
                + [HeartbeatEvent(r, now)])
    {
      var found := FirstByName(agents, payload.name);
      if found.None? {
        r := HeartbeatNewAgent(payload, newId, hexToken, now, patch, provision);
        ghost var made := CreatedOnHeartbeat(payload, newId, hexToken, now);
        SessionKeyIsSession(made, payload.name, hexToken);
        BeatenFacts(made, payload.status, now);
        LogGrows(old(activity), SessionEvent(made, EnsureGatewaySession(payload.name, hexToken, patch).1, now),
                 ProvisionEvents(made, provision, now), HeartbeatEvent(r, now));
        AppendedIsIn(old(agents), r);
      } else if HasSession(agents[found.value]) {
        var before := agents[found.value];
        Heartbeat(found.value, payload.status, now);
        r := Beat(before, payload.status, now);
        BeatenFacts(before, payload.status, now);
        HeartbeatEventOfBeat(before, payload.status, now);
        LogGrowsByOne(old(activity), HeartbeatEvent(r, now));
        UpdatedIsIn(old(agents), found.value, r);
      } else {
        ghost var before := agents[found.value];
        r := HeartbeatResync(found.value, payload, hexToken, now, patch, provision);
        ghost var keyed := before.(openclawSessionId := Some(BuildSessionKey(before.name, hexToken)));
        SessionKeyIsSession(keyed, before.name, hexToken);
        BeatenFacts(keyed, payload.status, now);
        LogGrows(old(activity), SessionEvent(r, EnsureGatewaySession(r.name, hexToken, patch).1, now),
                 ProvisionEvents(r, provision, now), HeartbeatEvent(r, now));
        UpdatedIsIn(old(agents), found.value, r);
      }
    }

    /** `delete_agent`: removes the row when it exists; the log is kept. */
    method DeleteAgent(agentId: Id)
      requires Valid()
      modifies this
      ensures Valid() && activity == old(activity)
      ensures IndexOfId(old(agents), agentId).None? ==> agents == old(agents)
      ensures IndexOfId(old(agents), agentId).Some? ==>
        var i := IndexOfId(old(agents), agentId).value;
        agents == old(agents)[..i] + old(agents)[i + 1..]
      ensures forall a :: a in agents ==> a in old(agents) && a.id != agentId
    {
      var found := IndexOfId(agents, agentId);
      if found.Some? {
        var i := found.value;
        agents := agents[..i] + agents[i + 1..];
      }
    }
  }
}
