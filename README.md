# Mission Control backend core, in Dafny

This project models the core of the Mission Control backend, a FastAPI service that
manages OpenClaw agents, their gateway sessions, boards, tasks and organisation tags.
The modelled parts are:

- **Agents** (`Agents`, from `backend/app/api/agents.py`). The agent table and the
  activity log are the fields of the class `AgentStore`.
  - Session keys `agent:<slug>:main` are derived from an agent's name.
  - The liveness view marks an agent offline after ten minutes of silence.
  - The endpoints list, get, create, update, heartbeat, heartbeat-or-create and
    delete agents.
  - Each endpoint says exactly which rows and which log entries it writes.
- **Gateway identity and board gateway resolution** (`OpenClawShared`, from
  `backend/app/services/openclaw/shared.py`). This covers:
  - the gateway-main session key and OpenClaw agent id;
  - the optional and the required gateway configuration of a board;
  - the two-call message dispatch, plain and error-capturing;
  - the trace-id fallback.
- **Session key formats** (`SessionKeys`), as `backend/tests/test_session_keys.py`
  fixes them.
- **Task updates by a non-lead agent** (`TaskPermissions`), as
  `backend/tests/test_task_agent_permissions.py` pins them down. Only the status of a
  task assigned to the acting agent may change. Every refusal is a 403 that carries a
  code.
- **Path dependencies** (`Deps`, from `backend/app/api/deps.py`): a board by id, then
  a task through that board.
- **The tag service** (`TagService`, from `backend/app/services/tags.py`):
  - tag slugs;
  - order-preserving de-duplication of id lists;
  - validation of tag ids against an organisation;
  - grouping of tag rows per task;
  - replacement of a task's tag assignments;
  - per-tag task counts.
- **The tag endpoints** (`TagApi`, from `backend/app/api/tags.py`). These cover slug
  normalisation, the organisation check, the slug-uniqueness check, the read page with
  its counts, and the create, get, update and delete endpoints over the tag and
  assignment tables held by `TagService.TagDb`.
- **The gateway endpoints** (`GatewayApi`, from `backend/app/api/gateway.py`). Results
  of `sessions.list` and of the chat history may be list-shaped or object-shaped. They
  are normalised with Python's truthiness and `list()` rules, modelled on a small JSON
  datatype. The endpoints are status, list sessions, get one session, session history
  and send message.

Supporting modules:

- `Common` holds results, HTTP errors, hex tokens and `str.strip`.
- `Slugs` holds the shared slug pipeline: `value.lower()`, `re.sub("[^a-z0-9]+", "-")`
  and `.strip("-")`, and the proof that its output is a dash-separated run of
  `[a-z0-9]`.
- `Models` holds the table rows.

## Inputs instead of effects

Effects become parameters of the operations they belong to:

- **Clock.** `datetime.utcnow()` becomes an integer parameter `now`.
- **Random tokens.** `uuid4()` becomes two parameters: a new row id, and a
  32-character lower-case hex token `hexToken`.
- **Gateway replies.** What the gateway answers is a `GatewayReply`: either the
  result, or the text of the `OpenClawGatewayError` it raised. The same holds for
  `sessions.patch`, `ensure_session` and `send_message`. The outcome of
  `send_provisioning_message` is a `ProvisionOutcome`: delivered, or raised with its text.
  `ProvisionRaised` covers both the gateway error and the `except Exception` arm.
  Where the endpoint passes the path's session id to the gateway (`get_chat_history`,
  `send_message(..., session_key=session_id)`), the gateway is a function from its
  arguments to its reply, so the contracts say which session was asked.
- **Database reads.** These become the table contents. Keyed lookups use `map`s or
  sequence searches.

## Model

| member | source | states |
|---|---|---|
| Common.Strip | backend/app/services/openclaw/shared.py:117 | `str.strip()`: neither end of the result is whitespace |
| Common.StripIsSlice | backend/app/services/openclaw/shared.py:117 | the stripped text is a contiguous slice of the input, with only stripped characters removed on either side |
| Common.TrimLeftDrops | backend/app/services/openclaw/shared.py:117 | every character the left strip drops is whitespace (or a dash, for the slug rule) |
| Common.TrimRightDrops | backend/app/services/openclaw/shared.py:117 | every character the right strip drops is in the stripped class |
| Common.StripIdempotent | backend/app/services/openclaw/shared.py:117 | stripping twice equals stripping once |
| Slugs.SlugCoreShape | backend/app/api/agents.py:32 | the slug pipeline yields nothing or a finished slug: only `[a-z0-9]` and single dashes, no dash at either end |
| Slugs.CollapseRuns | backend/app/api/agents.py:32 | `re.sub` leaves only slug characters and single dashes, never longer than its input, and starts with no dash after a replaced run |
| Slugs.SlugCore | backend/app/services/tags.py:28 | the slug is no longer than the value and has no dash at either end |
| Slugs.Groups | backend/app/services/tags.py:28 | the maximal `[a-z0-9]` runs of the text, each non-empty and made only of slug characters; a text starting with one has at least one |
| Slugs.CollapseRunsGroups | backend/app/services/tags.py:28 | once a leading run has been replaced, the `re.sub` followed by stripping trailing dashes gives the groups joined by single dashes |
| Slugs.SlugCoreGroups | backend/app/services/tags.py:28 | the slug is exactly the groups of the lower-cased value joined by single dashes: one dash per separating run |
| Slugs.GroupsFlatten | backend/app/services/tags.py:28 | the groups together hold every letter and digit of the text, in order, and nothing else |
| Slugs.AlnumJoinDash | backend/app/services/tags.py:28 | joining groups with dashes adds no letter or digit |
| Slugs.SlugCoreKeepsAlnum | backend/app/services/tags.py:28 | the slug keeps every letter and digit of the lower-cased value, in order, and adds none |
| Slugs.SlugCoreFixpoint | backend/app/services/tags.py:28 | the slug pipeline leaves an existing slug unchanged |
| Agents.HexTokenIsSlug | backend/app/api/agents.py:33 | a `uuid4().hex` fallback is itself a valid slug |
| Agents.Slugify | backend/app/api/agents.py:31-33 | `_slugify` always yields a non-empty dash-separated slug; which slug is stated by Agents.SlugifyMeaning |
| Agents.SlugifyMeaning | backend/app/api/agents.py:31-33 | the token exactly when the lower-cased value has no letter or digit; otherwise its groups joined by single dashes |
| Agents.SlugifyIdempotent | backend/app/api/agents.py:31-33 | re-slugifying a slug returns it whatever token is drawn |
| Agents.BuildSessionKey | backend/app/api/agents.py:36-37 | the slug of the name can be read back out of `agent:<slug>:main` |
| Agents.SessionKeyDeterminedBySlug | backend/app/api/agents.py:36-37 | two names share a session key exactly when they share a slug |
| Agents.EnsureGatewaySession | backend/app/api/agents.py:40-46 | returns the derived key; returns an error text, the gateway's own, exactly when `sessions.patch` raised |
| Agents.WithComputedStatus | backend/app/api/agents.py:49-53 | only the status can change; it can only become "offline", and only for a stale agent |
| Agents.ComputedStatusCases | backend/app/api/agents.py:49-53 | stale means offline; never seen, or exactly ten minutes, means unchanged |
| Agents.ComputedStatusMonotone | backend/app/api/agents.py:49-53 | once offline, stays offline at later times; applying the view twice equals applying it once |
| Agents.BeatIsLive | backend/app/api/agents.py:163-166 | a freshly beaten agent is shown as it is stored; only status, last seen and updated change; an empty status is ignored |
| Agents.SessionEvent | backend/app/api/agents.py:95-108 | the session entry names the agent and the time; it is "agent.session.failed" exactly when an error was raised, else "agent.session.created" |
| Agents.ProvisionEvents | backend/app/api/agents.py:110-117 | at most one entry; one exactly when provisioning raised, and it is "agent.provision.failed" for the agent at that time |
| Agents.Beat | backend/app/api/agents.py:163-166 | only status, last seen and updated change; last seen and updated become now; a truthy reported status is taken, otherwise the old status is kept |
| Agents.CreatedOnHeartbeat | backend/app/api/agents.py:182-184 | the new agent has the id and name, was never seen, has a non-empty status equal to the sent one when that is truthy, and its session key carries the slug of its name |
| Agents.IndexOfId | backend/app/api/agents.py:127 | finds the row with the id, or proves that no row has it |
| Agents.FirstByName | backend/app/api/agents.py:180 | the first row in table order with the name, or proof that none has it |
| Agents.TouchedSnoc | backend/app/api/agents.py:143-145 | each applied update item adds its attribute to the touched set |
| Agents.ApplyAgentUpdates | backend/app/api/agents.py:143-145 | the `setattr` loop sets exactly the listed attributes to their values and leaves every other attribute as it was |
| Agents.AgentStore.ListAgents | backend/app/api/agents.py:79-80 | one entry per row, in order, each row seen through the liveness view |
| Agents.AgentStore.GetAgent | backend/app/api/agents.py:127-130 | 404 exactly when no row has the id; otherwise that row through the liveness view |
| Agents.AgentStore.Heartbeat | backend/app/api/agents.py:163-171 | rewrites only row i as the beaten agent and appends one heartbeat entry |
| Agents.AgentStore.CreateAgent | backend/app/api/agents.py:89-118 | appends the new row with the derived session key; logs the session outcome, then any provisioning failure |
| Agents.AgentStore.UpdateAgent | backend/app/api/agents.py:140-150 | 404 and no change for an unknown id; otherwise only that row changes: the listed attributes are set and updated_at is stamped |
| Agents.AgentStore.HeartbeatAgent | backend/app/api/agents.py:160-171 | 404 and no change for an unknown id; otherwise that row is beaten and the heartbeat is logged |
| Agents.AgentStore.LogSessionAndProvision | backend/app/api/agents.py:95-117 | logs the session created or failed entry, then the provisioning failure entries |
| Agents.AgentStore.HeartbeatNewAgent | backend/app/api/agents.py:181-210 | an unknown name creates an agent with the derived key and a default "online" status; it is beaten and the session, provisioning and heartbeat entries are logged in order |
| Agents.AgentStore.HeartbeatResync | backend/app/api/agents.py:211-245 | a known agent without a session gets the derived key, then is beaten; the same log order |
| Agents.AgentStore.HeartbeatOrCreateAgent | backend/app/api/agents.py:180-245 | afterwards the named agent is in the table, has a session, was seen now and is shown live; the old log is a prefix and the last entry is its heartbeat. Per case: an unknown name appends the created and beaten agent and logs the session entry, any provisioning failure and the heartbeat; an agent without a session gets the derived key, is beaten, and logs the same three parts; an agent with a session is only beaten and logs the heartbeat |
| Agents.AgentStore.DeleteAgent | backend/app/api/agents.py:254-258 | removes exactly the row with the id, if any; the log is kept |
| OpenClawShared.SessionKeyForId | backend/app/services/openclaw/shared.py:32-33 | prefix + id + suffix |
| OpenClawShared.SessionKeyForIdParts | backend/app/services/openclaw/shared.py:32-33 | the prefix and the id can be sliced back out of the key |
| OpenClawShared.SessionKeyForIdInjective | backend/app/services/openclaw/shared.py:32-33 | two gateways share a session key exactly when their ids are equal |
| OpenClawShared.SessionKeyOfGateway | backend/app/services/openclaw/shared.py:36-37 | a gateway's key is the key of its id, and it is injective in that id |
| OpenClawShared.SessionKey | backend/app/services/openclaw/shared.py:36-37 | the gateway's key has the main-session prefix and its id can be sliced back out |
| OpenClawShared.OpenclawAgentIdForId | backend/app/services/openclaw/shared.py:40-41 | the agent id is the OpenClaw prefix followed by exactly the gateway id |
| OpenClawShared.OpenclawAgentId | backend/app/services/openclaw/shared.py:44-45 | a gateway's agent id has the prefix and the gateway's id after it |
| OpenClawShared.OpenclawAgentIdInjective | backend/app/services/openclaw/shared.py:40-45 | the OpenClaw agent id is prefix + id and is injective in the gateway id |
| OpenClawShared.OptionalGatewayConfigForBoard | backend/app/services/openclaw/shared.py:48-58 | a config exists exactly when the board has a gateway that exists and has a non-empty url |
| OpenClawShared.RequireGatewayConfigForBoard | backend/app/services/openclaw/shared.py:61-77 | 422 "not attached" without a gateway id, otherwise 422 when it is missing or has no url; otherwise that gateway and its config |
| OpenClawShared.GatewayConfigResolversAgree | backend/app/services/openclaw/shared.py:48-77 | the required resolver fails exactly when the optional one gives nothing, and both give the same config otherwise |
| OpenClawShared.RequireGatewayConfigMessages | backend/app/services/openclaw/shared.py:72-76 | an attached board with a missing or url-less gateway gets "Gateway is not configured for this board" |
| OpenClawShared.SendGatewayAgentMessage | backend/app/services/openclaw/shared.py:80-90 | ensure_session first; send_message only after ensure_session succeeded; the first error propagates |
| OpenClawShared.SendGatewayAgentMessageSafe | backend/app/services/openclaw/shared.py:93-112 | no error exactly when both calls replied; otherwise the first transport error's text; the message is sent exactly when the session was ensured |
| OpenClawShared.ResolveTraceId | backend/app/services/openclaw/shared.py:115-120 | a trace id is never empty |
| OpenClawShared.ResolveTraceIdKeepsCorrelation | backend/app/services/openclaw/shared.py:117-119 | a correlation id that is not blank is returned stripped and does not depend on the random token |
| OpenClawShared.ScopedTokenShape | backend/app/services/openclaw/shared.py:120 | the fallback is `prefix:` followed by 12 hex characters |
| OpenClawShared.ResolveTraceIdFallback | backend/app/services/openclaw/shared.py:117-120 | a missing or blank correlation id gives `prefix:` + the first 12 characters of the token |
| SessionKeys.SessionKeyTestEqualities | backend/tests/test_session_keys.py:17-47 | the five test equalities, for all ids |
| SessionKeys.GatewayMainSessionKey | backend/tests/test_session_keys.py:17-19 | the gateway main key is the prefix, then exactly the gateway id, then the suffix |
| SessionKeys.BoardLeadSessionKey | backend/tests/test_session_keys.py:22-24 | `agent:lead-` + board id + `:main`, with the board id sliced back out |
| SessionKeys.BoardAgentSessionKey | backend/tests/test_session_keys.py:27-29 | `agent:mc-` + agent id + `:main`, with the agent id sliced back out |
| SessionKeys.BoardScopedSessionKey | backend/tests/test_session_keys.py:32-47 | the lead key of the board for a lead, otherwise the worker key of the agent, each with its id sliced back out |
| SessionKeys.LeadKeyIsNotWorkerKey | backend/tests/test_session_keys.py:22-29 | no board-lead key equals a worker key |
| SessionKeys.BoardKeysInjective | backend/tests/test_session_keys.py:22-29 | lead keys are injective in the board id, worker keys in the agent id |
| SessionKeys.ScopedKeyDeterminesOwner | backend/tests/test_session_keys.py:32-47 | a scoped key determines whether its owner is the lead, and then the board or the agent |
| TaskPermissions.FieldsSet | backend/tests/test_task_agent_permissions.py:89 | the status and assignee fields count as set exactly when the patch sets them |
| TaskPermissions.NonLeadDecision | backend/tests/test_task_agent_permissions.py:165-167 | every refusal is a 403 with a coded detail |
| TaskPermissions.ApprovedIffStatusOnlyByAssignee | backend/tests/test_task_agent_permissions.py:88-96 | approved exactly for a status-only patch by the task's assignee |
| TaskPermissions.DenialCodes | backend/tests/test_task_agent_permissions.py:165-171 | which code and which message each refusal carries (this test and the two like it further down the file) |
| TaskPermissions.PermissionTests | backend/tests/test_task_agent_permissions.py:88-327 | the four test scenarios, for every task and pair of agents |
| TaskPermissions.TaskTable.UpdateTaskAsNonLeadAgent | backend/tests/test_task_agent_permissions.py:88-96 | a refusal leaves the table unchanged; an approval writes only the new status; the assignee stays the actor |
| Deps.GetBoardOr404 | backend/app/api/deps.py:22-25 | 404 exactly when the board id is unknown; otherwise that board |
| Deps.GetTaskOr404 | backend/app/api/deps.py:33-36 | 404 exactly when the task is unknown or belongs to another board |
| Deps.BoardTask | backend/app/api/deps.py:18-36 | every failure is the same 404; a success is a task of an existing board, carrying that board's id |
| Deps.TaskReachableOnlyThroughItsBoard | backend/app/api/deps.py:18-36 | the board-then-task path succeeds exactly for an existing board and a task of that board; every failure is the same 404 |
| TagService.FallbackIsSlug | backend/app/services/tags.py:29 | the fallback "tag" is a slug |
| TagService.SlugifyTag | backend/app/services/tags.py:26-29 | always a non-empty dash-separated `[a-z0-9]` slug; which slug is stated by TagService.SlugifyTagMeaning |
| TagService.SlugifyTagMeaning | backend/app/services/tags.py:26-29 | "tag" exactly when the lower-cased value has no letter or digit; otherwise its groups joined by single dashes |
| TagService.SlugifyTagIdempotent | backend/app/services/tags.py:26-29 | slugifying a tag slug returns it |
| TagService.SlugifyTagFallback | backend/app/services/tags.py:28-29 | the result is "tag" exactly when the text has no alphanumerics or already slugs to "tag" |
| TagService.FirstIndexPrefix | backend/app/services/tags.py:32-40 | the first occurrence of an element is unchanged by truncating after it |
| TagService.DedupeElements | backend/app/services/tags.py:32-40 | the deduplicated list has no repeats and keeps exactly the input's elements |
| TagService.DedupeOrder | backend/app/services/tags.py:32-40 | elements keep the order of their first occurrences |
| TagService.DedupeOfNoDups | backend/app/services/tags.py:32-40 | a list without repeats is unchanged |
| TagService.DedupeIdempotent | backend/app/services/tags.py:32-40 | deduplicating twice equals deduplicating once |
| TagService.DedupeUuidList | backend/app/services/tags.py:32-40 | the loop with its `seen` set computes the deduplicated list |
| TagService.Absent | backend/app/services/tags.py:61 | the missing ids are exactly the listed ids that do not exist |
| TagService.AbsentKeepsOrder | backend/app/services/tags.py:61 | filtering keeps first-occurrence order |
| TagService.ValidateTagIdsSpec | backend/app/services/tags.py:43-70 | empty input gives empty; success exactly when every id is an organisation tag, returning them deduplicated; otherwise 404 listing every missing id in order |
| TagService.ValidateTagIds | backend/app/services/tags.py:43-70 | every failure is a 404 carrying a non-empty list of missing ids |
| TagService.StateOf | backend/app/services/tags.py:106-118 | one id and one reference per tag, in row order |
| TagService.TagsOfAbsent | backend/app/services/tags.py:106-109 | a task with no row has no tags |
| TagService.StateOfSnoc | backend/app/services/tags.py:110-118 | appending a row appends its tag id and reference |
| TagService.RowTaskIdsSnoc | backend/app/services/tags.py:106-109 | a row with a task id adds that task, and a row without one adds nothing |
| TagService.TagsOfSnoc | backend/app/services/tags.py:106-118 | a row extends only its own task's tag list |
| TagService.GroupRowsSnoc | backend/app/services/tags.py:105-119 | grouping an extended row list extends one task's state |
| TagService.LoadTagState | backend/app/services/tags.py:81-119 | an empty id list gives an empty map; otherwise the loop groups the rows per task |
| TagService.GroupRowsSpec | backend/app/services/tags.py:105-119 | a task has a state exactly when some row names it; that state lists its rows' tags in row order |
| TagService.TagsOfNonEmpty | backend/app/services/tags.py:105-119 | every task in the map has at least one tag |
| TagService.TagDb.ReplaceTags | backend/app/services/tags.py:122-136 | all of the task's assignments are removed, and one per deduplicated tag id is added, in order; other tasks' rows are kept |
| TagService.NewAssignments | backend/app/services/tags.py:135-136 | one assignment per id, in order |
| TagService.TagIdsOfTaskAppend | backend/app/services/tags.py:122-136 | the tags of a task distribute over concatenated rows |
| TagService.TagIdsOfOtherTasks | backend/app/services/tags.py:130-134 | after the delete the task has no tags and other tasks keep theirs |
| TagService.TagIdsOfNewAssignments | backend/app/services/tags.py:135-136 | the new rows give the task exactly the listed tags and no other task any |
| TagService.ReplaceTagsEffect | backend/app/services/tags.py:122-136 | after replacement the task's tags are the deduplicated list and every other task's tags are unchanged |
| TagService.TaskCountsForTags | backend/app/services/tags.py:139-158 | an empty list gives an empty map; a listed tag with a row has an entry, and it is its row count |
| TagService.CountTasksAppend | backend/app/services/tags.py:139-158 | counts add over concatenated rows |
| TagService.CountNewAssignments | backend/app/services/tags.py:135-136 | each deduplicated tag gains exactly one row |
| TagService.ReplaceTagsCounts | backend/app/services/tags.py:122-158 | after replacement each tag's count drops the task's old rows and adds one if the tag was listed |
| TagApi.NormalizeSlug | backend/app/api/tags.py:37-39 | always a slug |
| TagApi.SlugIsStripped | backend/app/api/tags.py:38 | a slug has no surrounding whitespace |
| TagApi.NormalizeSlugSpec | backend/app/api/tags.py:37-39 | a non-blank slug is slugified stripped; a missing or blank one comes from the name; normalising again is a no-op |
| TagApi.TagIndex | backend/app/api/tags.py:48 | the row with the id, or none has it |
| TagApi.RequireOrgTag | backend/app/api/tags.py:42-53 | 404 exactly when the id is unknown; 403 exactly when it belongs to another organisation; otherwise that row |
| TagApi.TagBySlug | backend/app/api/tags.py:63-65 | a tag of the organisation with the slug, or none exists |
| TagApi.EnsureSlugAvailableSpec | backend/app/api/tags.py:56-73 | in a table with unique slugs per organisation, available exactly when no other tag of the organisation has the slug; otherwise 409 |
| TagApi.EnsureSlugAvailable | backend/app/api/tags.py:56-73 | every failure is the 409 with the fixed message; without an excluded id, available exactly when no tag of the organisation has the slug |
| TagApi.NoRowNoCount | backend/app/api/tags.py:89 | a tag without rows counts zero, the `counts.get(id, 0)` default |
| TagApi.TagReadPage | backend/app/api/tags.py:76-92 | one read per item, in order, each with its tag's task count |
| TagApi.PageCounts | backend/app/api/tags.py:83-89 | the count map with its default gives every item's row count |
| TagApi.GetTag | backend/app/api/tags.py:151-165 | fails exactly when the organisation check does, with its error (404 for an unknown id, 403 for another organisation's tag); otherwise the requested row with `COUNT(task_id)` of its assignments |
| TagApi.GetTagAgreesWithPage | backend/app/api/tags.py:156-165 | a single read gives the same count as the page read |
| TagApi.CreateTag | backend/app/api/tags.py:126-141 | 409 and no change when the normalised slug is taken; otherwise one new tag appended; slug uniqueness is kept |
| TagApi.AppendKeepsValid | backend/app/api/tags.py:126-140 | a tag with a fresh id and an available slug keeps the table valid |
| TagApi.InsertTag | backend/app/api/tags.py:127-140 | the write step of `create_tag`: 409 and no change when the row's slug is held in its organisation, otherwise exactly that row appended, with slug uniqueness kept |
| TagApi.ReplaceTag | backend/app/api/tags.py:189-197 | the write step of `update_tag`: a re-set slug held by another tag of the organisation is a 409 with no change; otherwise only row `i` changes and slug uniqueness is kept |
| TagApi.UpdateTag | backend/app/api/tags.py:176-197 | the organisation check; a set slug is re-normalised against the new or old name and checked excluding the tag itself; only that row changes |
| TagApi.KeepsValid | backend/app/api/tags.py:183-196 | a row rewritten with an available slug keeps the table valid |
| TagApi.UpdatedSlug | backend/app/api/tags.py:183-187 | a slug not in the patch is kept; a patched slug is always a valid slug |
| TagApi.Patched | backend/app/api/tags.py:181-196 | id and organisation are kept, the slug is the given one, updated_at is now, and a field absent from the patch keeps its old value |
| TagApi.WithoutTag | backend/app/api/tags.py:212-217 | exactly the assignments of other tags remain |
| TagApi.DeleteTag | backend/app/api/tags.py:207-220 | the organisation check; otherwise the tag and all its assignments are removed |
| TagApi.RemovalKeepsValid | backend/app/api/tags.py:218 | removing a row keeps the table valid |
| TagApi.DeleteCascade | backend/app/api/tags.py:212-218 | no assignment of the tag survives; other tags keep all rows and counts |
| TagApi.CountWithoutTag | backend/app/api/tags.py:212-217 | the cascade zeroes the deleted tag's count and preserves others' |
| GatewayApi.Get | backend/app/api/gateway.py:24 | `dict.get`: None when no member has the key; otherwise the value of the first member with it, which may itself be None |
| GatewayApi.PyList | backend/app/api/gateway.py:24-26 | `list()` keeps a list, splits a string into characters and takes an object's keys; it raises TypeError, and only that, exactly for None, booleans and numbers |
| GatewayApi.NormalizeSessions | backend/app/api/gateway.py:23-26 | a falsy result gives no sessions; a list is kept; an object gives `list()` of its truthy `sessions` member, or nothing; any other truthy value gives `list()` of it; TypeError exactly when the value handed to `list()` is a truthy boolean or number |
| GatewayApi.NormalizeSessionsShapes | backend/app/api/gateway.py:23-26 | a list and an object whose first `sessions` member is that list give the same list, whatever other members it has; a missing or falsy member gives nothing; a truthy scalar member raises TypeError |
| GatewayApi.GatewayStatusOf | backend/app/api/gateway.py:20-38 | never an HTTP error; the configured or default url; a transport error is reported with its text; the count is the list's length |
| GatewayApi.ListSessions | backend/app/api/gateway.py:43-49 | 502 exactly on a transport error, carrying its text; otherwise the normalised sessions, or the TypeError when normalising raises |
| GatewayApi.StatusAgreesWithList | backend/app/api/gateway.py:20-49 | status is connected exactly when listing succeeds, and they show the same sessions and the same error text |
| GatewayApi.FirstHit | backend/app/api/gateway.py:64 | `next` over the generator's tests: the first True is found whenever every earlier test was False; none exactly when every test was False; the first test that raises, and only such a test, decides an error |
| GatewayApi.FirstWithKey | backend/app/api/gateway.py:64 | the index of the first object whose key matches, found whenever every earlier item is an object with another key; none exactly when every item is such an object; an AttributeError, and only that, when a non-object comes first |
| GatewayApi.GetSession | backend/app/api/gateway.py:56-63 | 502 on a transport error, carrying its text; the TypeError when normalising the sessions raises |
| GatewayApi.GetSessionSpec | backend/app/api/gateway.py:56-67 | the answer is the first listed object with the key, and an existing first match is always returned; a non-object met first gives the AttributeError; 404 exactly when every listed item is an object with another key |
| GatewayApi.NormalizeHistory | backend/app/api/gateway.py:78-80 | the `messages` list of an object that has one; otherwise `list(history or [])`: nothing for a falsy history, a string's characters, an object's keys; TypeError, and only that, exactly for a truthy boolean or number |
| GatewayApi.NormalizeHistoryShapes | backend/app/api/gateway.py:78-80 | a list and an object whose first `messages` member is that list give the same list, whatever other members it has; an object without a messages list gives its keys; a string gives its characters; a truthy scalar raises TypeError |
| GatewayApi.GetSessionHistory | backend/app/api/gateway.py:74-80 | the history is asked for the session of the path; 502 exactly on a transport error, carrying its text; otherwise the normalised history, or the TypeError when normalising raises |
| GatewayApi.SendSessionMessage | backend/app/api/gateway.py:89-98 | 422 exactly when content is missing or falsy, and then nothing is sent; otherwise the content is sent to the session of the path, giving ok or 502 with the error text |

## Left out

- Slugs.LowerChar: `str.lower()` is modelled for the ASCII letters only. For slugs this
  matters only for the few non-ASCII characters whose lower case contains an ASCII
  letter, such as the Kelvin sign and dotted capital I. Every other non-ASCII letter
  becomes a dash either way.
- Common.IsSpace: `str.strip()` is modelled with the whitespace of the Latin-1 range.
  Wider Unicode spaces are not modelled.
- HTTP routing, dependency injection, authentication (`require_admin_auth`,
  organisation member and admin checks), transactions and commits are not modelled.
  An endpoint's effect is its final state.
- The SQL queries are not modelled. `load_tag_state` takes its joined, ordered rows as
  an input. The `ORDER BY` and pagination of `list_tags` are not modelled;
  `TagApi.TagReadPage` takes the page's items.
- The values of `_GATEWAY_AGENT_PREFIX`, `_GATEWAY_AGENT_SUFFIX` and
  `_GATEWAY_OPENCLAW_AGENT_PREFIX` are defined outside this core. They are constants
  without a value here, and the proofs hold for any value.
- The message of `task_update_field_forbidden` is not fixed by the tests, so it is a
  constant without a value.
- The `update_task` endpoint is not part of this model. Its behaviour for board leads
  and admins is not modelled. When several checks fail at once, the model refuses
  with the field check first; that order is chosen here, because the tests never
  combine failures.
- TaskPermissions.NonLeadDecision: a patch that sets no field, sent by the assignee,
  is approved and writes nothing. The tests do not fix this case; it is chosen here,
  like the guard order above.
- Agents.AgentStore.CreateAgent: the `AgentCreate` schema is defined outside this core.
  Its fields `name`, `status` and `board_id` are assumed here. The new row starts with
  `is_board_lead` false and `last_seen_at` None, as `Agent.model_validate(payload)`
  (agents.py:89) does for fields the payload lacks.
- Agents.FirstByName: `select(Agent).where(Agent.name == ...).first()` has no `ORDER BY`,
  so the database may return any row with that name. The model takes the first in table
  order.
- Agents.AgentFieldUpdate: the `AgentUpdate` schema is defined outside this core. The
  settable fields `name`, `status` and `board_id` are assumed here.
- TaskPermissions.TaskTable.UpdateTaskAsNonLeadAgent does not stamp `updated_at`,
  because the tests do not observe it.
- Non-gateway exceptions are not modelled. The provisioning `except Exception` branch
  is covered only because it logs the same entry as the gateway error.
- Settings are a parameter. `settings.openclaw_gateway_url` is the string argument of
  `GatewayApi.GatewayStatusOf`.
- JSON objects with duplicate keys are not modelled; `dict.get` finds the first
  member. Floats are not modelled in the JSON model.
- An explicit `null` tag name in an update is not modelled.
