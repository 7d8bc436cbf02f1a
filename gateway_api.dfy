/** The gateway endpoints of `backend/app/api/gateway.py`: what
    `sessions.list` and `get_chat_history` return may be list-shaped or
    object-shaped, and both are normalised to a sequence with Python's
    truthiness and `list()` rules. The RPC results are inputs. */
module GatewayApi {
  import opened Common
  import opened Models

  /** A decoded JSON value; an object keeps its members in order. */
  datatype Json =
    | JNull
    | JBool(b: bool)
    | JNum(n: int)
    | JStr(s: string)
    | JList(items: seq<Json>)
    | JObject(members: seq<(string, Json)>)

  /** Python truthiness. */
  predicate Truthy(j: Json)
  {
    match j
    case JNull => false
    case JBool(b) => b
    case JNum(n) => n != 0
    case JStr(s) => s != ""
    case JList(items) => items != []
    case JObject(members) => members != []
  }

  /** `x or y`. */
  function Or(x: Json, y: Json): Json
  {
    if Truthy(x) then x else y
  }

  /** `d.get(key)`: the value of the member with that key, or None when
      there is none. */
  function Get(members: seq<(string, Json)>, key: string): (r: Json)
    ensures (forall i :: 0 <= i < |members| ==> members[i].0 != key) ==> r == JNull
    ensures forall i :: 0 <= i < |members| && members[i].0 == key && (forall j :: 0 <= j < i ==> members[j].0 != key) ==>
      r == members[i].1
    ensures r != JNull ==> exists i :: 0 <= i < |members| && members[i] == (key, r)
  {
    if members == [] then JNull
    else if members[0].0 == key then members[0].1
    else
      var r := Get(members[1..], key);
      if r != JNull then
        var i :| 0 <= i < |members[1..]| && members[1..][i] == (key, r);
        assert members[i + 1] == (key, r);
        r
      else r
  }

  /** The exceptions the endpoints do not catch. */
  datatype Crash = TypeError | AttributeError

  /** `list(x)`: a list's items, a string's characters, an object's keys;
      anything else is not iterable. */
  function PyList(j: Json): (r: Result<seq<Json>, Crash>)
    ensures j.JList? ==> r == Ok(j.items)
    ensures j.JStr? ==> r.Ok? && |r.value| == |j.s| && forall i :: 0 <= i < |j.s| ==> r.value[i] == JStr([j.s[i]])
    ensures j.JObject? ==> r.Ok? && |r.value| == |j.members| && forall i :: 0 <= i < |j.members| ==> r.value[i] == JStr(j.members[i].0)
    ensures r.Err? <==> j.JNull? || j.JBool? || j.JNum?
    ensures r.Err? ==> r == Err(TypeError)
  {
    match j
    case JList(items) => Ok(items)
    case JStr(s) => Ok(seq(|s|, i requires 0 <= i < |s| => JStr([s[i]])))
    case JObject(members) => Ok(seq(|members|, i requires 0 <= i < |members| => JStr(members[i].0)))
    case _ => Err(TypeError)
  }

  /** A true boolean or a non-zero number: truthy, yet not iterable. */
  predicate TruthyScalar(j: Json)
  {
    Truthy(j) && (j.JBool? || j.JNum?)
  }

  /** The sessions list of a `sessions.list` result, as all three endpoints
      compute it. */
  function NormalizeSessions(result: Json): (r: Result<seq<Json>, Crash>)
    ensures !Truthy(result) ==> r == Ok([])
    ensures result.JList? ==> r == Ok(result.items)
    ensures result.JObject? && Get(result.members, "sessions").JList? ==> r == Ok(Get(result.members, "sessions").items)
    ensures result.JObject? && !Truthy(Get(result.members, "sessions")) ==> r == Ok([])
    ensures result.JObject? && Truthy(Get(result.members, "sessions")) ==> r == PyList(Get(result.members, "sessions"))
    ensures !result.JObject? && Truthy(result) ==> r == PyList(result)
    ensures r.Err? <==> TruthyScalar(if result.JObject? then Get(result.members, "sessions") else result)
    ensures r.Err? ==> r == Err(TypeError)
  {
    if result.JObject? then PyList(Or(Get(result.members, "sessions"), JList([])))
    else PyList(Or(result, JList([])))
  }

  /** Both shapes of a list of sessions give that list, whatever other
      members the object has; an empty or missing `sessions` member gives
      nothing; only a truthy scalar is refused. */
  lemma NormalizeSessionsShapes(items: seq<Json>, members: seq<(string, Json)>, result: Json)
    ensures NormalizeSessions(JList(items)) == Ok(items)
    ensures forall i ::
      0 <= i < |members| && members[i] == ("sessions", JList(items)) && (forall j :: 0 <= j < i ==> members[j].0 != "sessions")
      ==> NormalizeSessions(JObject(members)) == Ok(items)
    ensures (forall i :: 0 <= i < |members| ==> members[i].0 != "sessions") ==> NormalizeSessions(JObject(members)) == Ok([])
    ensures result.JObject? && !Truthy(Get(result.members, "sessions")) ==> NormalizeSessions(result) == Ok([])
    ensures NormalizeSessions(result).Err? ==>
      NormalizeSessions(result) == Err(TypeError)
      && (if result.JObject? then Truthy(Get(result.members, "sessions")) else Truthy(result))
  {
  }

  const DefaultGatewayUrl: string := "ws://127.0.0.1:18789"

  /** What an endpoint does: answers, raises an `HTTPException`, or fails
      with an exception it does not handle. */
  datatype Outcome<T> = Answered(value: T) | HttpRaised(error: HttpError) | Crashed(crash: Crash)

  /** The body of `/gateway/status`. */
  datatype GatewayStatus =
    | Connected(gatewayUrl: string, sessionsCount: nat, sessions: seq<Json>)
    | Disconnected(gatewayUrl: string, error: string)

  /** `gateway_status`: a transport error is reported in the body, never
      raised. `settingsUrl` is the configured url ("" when unset). */
  function GatewayStatusOf(settingsUrl: string, reply: GatewayReply<Json>): (r: Outcome<GatewayStatus>)
    ensures r.HttpRaised? == false
    ensures reply.Raised? ==> r.Answered? && r.value.Disconnected? && r.value.error == reply.message
    ensures r.Answered? ==> r.value.gatewayUrl == (if settingsUrl != "" then settingsUrl else DefaultGatewayUrl)
    ensures r.Answered? && r.value.Connected? ==> r.value.sessionsCount == |r.value.sessions|
  {
    var url := if settingsUrl != "" then settingsUrl else DefaultGatewayUrl;
    match reply
    case Raised(message) => Answered(Disconnected(url, message))
    case Replied(sessions) =>
      match NormalizeSessions(sessions)
      case Err(c) => Crashed(c)
      case Ok(list) => Answered(Connected(url, |list|, list))
  }

  /** A transport error becomes a 502 carrying its text. */
  function TransportError(message: string): HttpError
  {
    HttpError(BadGateway, Text(message))
  }

  /** `list_sessions`. */
  function ListSessions(reply: GatewayReply<Json>): (r: Outcome<seq<Json>>)
    ensures reply.Raised? <==> r.HttpRaised?
    ensures reply.Raised? ==> r.error == TransportError(reply.message)
    ensures reply.Replied? && NormalizeSessions(reply.result).Ok? ==> r == Answered(NormalizeSessions(reply.result).value)
    ensures reply.Replied? && NormalizeSessions(reply.result).Err? ==> r == Crashed(NormalizeSessions(reply.result).error)
  {
    match reply
    case Raised(message) => HttpRaised(TransportError(message))
    case Replied(sessions) =>
      match NormalizeSessions(sessions)
      case Err(c) => Crashed(c)
      case Ok(list) => Answered(list)
  }

  /** The status page and the sessions list see the same sessions: when one
      lists them the other does too, and a transport error is reported by
      both with the same text. */
  lemma StatusAgreesWithList(settingsUrl: string, reply: GatewayReply<Json>)
    ensures ListSessions(reply).Answered? <==> GatewayStatusOf(settingsUrl, reply).Answered? && GatewayStatusOf(settingsUrl, reply).value.Connected?
    ensures ListSessions(reply).Answered? ==>
      GatewayStatusOf(settingsUrl, reply).value.sessions == ListSessions(reply).value
    ensures ListSessions(reply).HttpRaised? ==>
      ListSessions(reply).error.detail == Text(GatewayStatusOf(settingsUrl, reply).value.error)
  {
  }

  /** `item.get("key") == session_id` on one item; an item that is not an
      object has no `get`. */
  function MatchesKey(item: Json, sessionId: string): Result<bool, Crash>
  {
    if item.JObject? then Ok(Get(item.members, "key") == JStr(sessionId)) else Err(AttributeError)
  }

  /** Every test before position `i` gave `False`. */
  predicate MissAll(tests: seq<Result<bool, Crash>>, i: int)
  {
    0 <= i <= |tests| && forall j :: 0 <= j < i ==> tests[j] == Ok(false)
  }

  /** `next(...)` over the outcomes of a generator's test, item by item:
      it stops at the first `True`, or at the first test that raises. */
  function FirstHit(tests: seq<Result<bool, Crash>>): (r: Result<Option<nat>, Crash>)
    ensures r.Ok? && r.value.Some? ==> r.value.value < |tests| && tests[r.value.value] == Ok(true) && MissAll(tests, r.value.value)
    ensures r == Ok(None) <==> MissAll(tests, |tests|)
    ensures forall i :: MissAll(tests, i) && i < |tests| && tests[i] == Ok(true) ==> r == Ok(Some(i))
    ensures forall i :: MissAll(tests, i) && i < |tests| && tests[i].Err? ==> r == Err(tests[i].error)
    ensures r.Err? ==> exists i :: 0 <= i < |tests| && tests[i] == Err(r.error)
  {
    if tests == [] then Ok(None)
    else match tests[0]
      case Err(c) => Err(c)
      case Ok(true) => Ok(Some(0))
      case Ok(false) =>
        assert forall i :: MissAll(tests, i) && 0 < i ==> MissAll(tests[1..], i - 1);
        assert forall i :: 0 < i <= |tests| && MissAll(tests[1..], i - 1) ==> MissAll(tests, i) by {
          forall i | 0 < i <= |tests| && MissAll(tests[1..], i - 1) ensures MissAll(tests, i) {
            forall j | 0 <= j < i ensures tests[j] == Ok(false) {
              if j > 0 { assert tests[j] == tests[1..][j - 1]; }
            }
          }
        }
        match FirstHit(tests[1..])
        case Err(c) => Err(c)
        case Ok(None) => Ok(None)
        case Ok(Some(k)) => Ok(Some(k + 1))
  }

  /** Every item before position `i` is an object with another key. */
  predicate MissesBefore(items: seq<Json>, sessionId: string, i: int)
  {
    0 <= i <= |items| && forall j :: 0 <= j < i ==> MatchesKey(items[j], sessionId) == Ok(false)
  }

  /** `next((item for item in sessions if item.get("key") == session_id), None)`. */
  function FirstWithKey(items: seq<Json>, sessionId: string): (r: Result<Option<nat>, Crash>)
    ensures r.Ok? && r.value.Some? ==>
      r.value.value < |items| && MatchesKey(items[r.value.value], sessionId) == Ok(true) && MissesBefore(items, sessionId, r.value.value)
    ensures r == Ok(None) <==> MissesBefore(items, sessionId, |items|)
    ensures forall i :: MissesBefore(items, sessionId, i) && i < |items| && MatchesKey(items[i], sessionId) == Ok(true) ==> r == Ok(Some(i))
    ensures forall i :: MissesBefore(items, sessionId, i) && i < |items| && !items[i].JObject? ==> r == Err(AttributeError)
    ensures r.Err? ==> r == Err(AttributeError)
  {
    var tests := seq(|items|, i requires 0 <= i < |items| => MatchesKey(items[i], sessionId));
    assert forall i :: MissesBefore(items, sessionId, i) <==> MissAll(tests, i) by {
      forall i ensures MissesBefore(items, sessionId, i) <==> MissAll(tests, i) {
        assert forall j :: 0 <= j < |items| ==> tests[j] == MatchesKey(items[j], sessionId);
      }
    }
    FirstHit(tests)
  }

  const SessionNotFound: string := "Session not found"

  /** `get_session`: the first listed session whose key matches, else 404. */
  function GetSession(sessionId: string, reply: GatewayReply<Json>): (r: Outcome<Json>)
    ensures reply.Raised? ==> r == HttpRaised(TransportError(reply.message))
    ensures reply.Replied? && NormalizeSessions(reply.result).Err? ==> r == Crashed(NormalizeSessions(reply.result).error)
  {
    match reply
    case Raised(message) => HttpRaised(TransportError(message))
    case Replied(sessions) =>
      match NormalizeSessions(sessions)
      case Err(c) => Crashed(c)
      case Ok(list) =>
        match FirstWithKey(list, sessionId)
        case Err(c) => Crashed(c)
        case Ok(None) => HttpRaised(HttpError(NotFound, Text(SessionNotFound)))
        case Ok(Some(i)) => Answered(list[i])
  }

  /** A session is returned exactly when it is the first listed object whose
      `key` is the id; a 404 means every listed session is an object with
      another key. */
  lemma GetSessionSpec(sessionId: string, reply: GatewayReply<Json>)
    ensures GetSession(sessionId, reply).Answered? ==>
      var list := ListSessions(reply).value;
      && ListSessions(reply).Answered?
      && exists i :: 0 <= i < |list| && list[i] == GetSession(sessionId, reply).value
           && GetSession(sessionId, reply).value.JObject?
           && Get(list[i].members, "key") == JStr(sessionId)
           && MissesBefore(list, sessionId, i)
    ensures GetSession(sessionId, reply) == HttpRaised(HttpError(NotFound, Text(SessionNotFound))) <==>
      ListSessions(reply).Answered? && MissesBefore(ListSessions(reply).value, sessionId, |ListSessions(reply).value|)
    ensures ListSessions(reply).Answered? ==>
      var list := ListSessions(reply).value;
      forall i :: MissesBefore(list, sessionId, i) && i < |list| && MatchesKey(list[i], sessionId) == Ok(true) ==> GetSession(sessionId, reply) == Answered(list[i])
    ensures ListSessions(reply).Answered? ==>
      var list := ListSessions(reply).value;
      forall i :: MissesBefore(list, sessionId, i) && i < |list| && !list[i].JObject? ==> GetSession(sessionId, reply) == Crashed(AttributeError)
  {
    if reply.Replied? && NormalizeSessions(reply.result).Ok? {
      var list := NormalizeSessions(reply.result).value;
      match FirstWithKey(list, sessionId)
      case Err(_) =>
      case Ok(None) =>
      case Ok(Some(i)) =>
        assert MatchesKey(list[i], sessionId) == Ok(true);
    }
  }

  /** The history of a `get_chat_history` result: the `messages` list of an
      object that has one, otherwise `list(history or [])`. */
  function NormalizeHistory(history: Json): (r: Result<seq<Json>, Crash>)
    ensures history.JObject? && Get(history.members, "messages").JList? ==>
      r == Ok(Get(history.members, "messages").items)
    ensures !Truthy(history) ==> r == Ok([])
    ensures !(history.JObject? && Get(history.members, "messages").JList?) ==> r == PyList(Or(history, JList([])))
    ensures history.JStr? ==> r.Ok? && |r.value| == |history.s| && forall i :: 0 <= i < |history.s| ==> r.value[i] == JStr([history.s[i]])
    ensures r.Err? <==> TruthyScalar(history)
    ensures r.Err? ==> r == Err(TypeError)
  {
    if history.JObject? && Get(history.members, "messages").JList? then Ok(Get(history.members, "messages").items)
    else PyList(Or(history, JList([])))
  }

  /** Both shapes of a message list give that list, whatever other members
      the object has; an object without a `messages` list gives its keys, as
      `list()` of a dict does; a string gives its characters; a truthy
      boolean or number cannot be listed. */
  lemma NormalizeHistoryShapes(items: seq<Json>, members: seq<(string, Json)>, text: string, history: Json)
    ensures NormalizeHistory(JList(items)) == Ok(items)
    ensures forall i :: 0 <= i < |members| && members[i] == ("messages", JList(items)) && (forall j :: 0 <= j < i ==> members[j].0 != "messages") ==> NormalizeHistory(JObject(members)) == Ok(items)
    ensures members != [] && !Get(members, "messages").JList? ==>
      NormalizeHistory(JObject(members)) == Ok(seq(|members|, i requires 0 <= i < |members| => JStr(members[i].0)))
    ensures NormalizeHistory(JStr(text)) == Ok(seq(|text|, i requires 0 <= i < |text| => JStr([text[i]])))
    ensures TruthyScalar(history) ==> NormalizeHistory(history) == Err(TypeError)
  {
    var chars := seq(|text|, i requires 0 <= i < |text| => JStr([text[i]]));
    assert NormalizeHistory(JStr(text)).value == chars;
  }

  /** `get_session_history`: `chatHistory` is what `get_chat_history`
      answers for each session key, and it is asked for the session of the
      path. */
  function GetSessionHistory(sessionId: string, chatHistory: string -> GatewayReply<Json>): (r: Outcome<seq<Json>>)
    ensures chatHistory(sessionId).Raised? <==> r.HttpRaised?
    ensures chatHistory(sessionId).Raised? ==> r.error == TransportError(chatHistory(sessionId).message)
    ensures chatHistory(sessionId).Replied? && NormalizeHistory(chatHistory(sessionId).result).Ok? ==>
      r == Answered(NormalizeHistory(chatHistory(sessionId).result).value)
    ensures chatHistory(sessionId).Replied? && NormalizeHistory(chatHistory(sessionId).result).Err? ==>
      r == Crashed(NormalizeHistory(chatHistory(sessionId).result).error)
  {
    match chatHistory(sessionId)
    case Raised(message) => HttpRaised(TransportError(message))
    case Replied(history) =>
      match NormalizeHistory(history)
      case Err(c) => Crashed(c)
      case Ok(list) => Answered(list)
  }

  const ContentRequired: string := "content is required"

  /** `send_session_message`: the `content` of the body is checked before
      the gateway is called; `send` is what the gateway answers to a message
      for a session key. The second component is the call made, the message
      and the session key it goes to, if any. */
  function SendSessionMessage(sessionId: string, payload: seq<(string, Json)>, send: (Json, string) -> GatewayReply<()>): (r: (Outcome<bool>, Option<(Json, string)>))
    ensures !Truthy(Get(payload, "content")) <==> r.0 == HttpRaised(HttpError(Unprocessable, Text(ContentRequired)))
    ensures !Truthy(Get(payload, "content")) ==> r.1.None?
    ensures Truthy(Get(payload, "content")) ==> r.1 == Some((Get(payload, "content"), sessionId))
    ensures r.0 == Answered(true) <==> Truthy(Get(payload, "content")) && send(Get(payload, "content"), sessionId).Replied?
    ensures Truthy(Get(payload, "content")) && send(Get(payload, "content"), sessionId).Raised? ==>
      r.0 == HttpRaised(TransportError(send(Get(payload, "content"), sessionId).message))
  {
    var content := Get(payload, "content");
    if !Truthy(content) then (HttpRaised(HttpError(Unprocessable, Text(ContentRequired))), None)
    else
      match send(content, sessionId)
      case Raised(message) => (HttpRaised(TransportError(message)), Some((content, sessionId)))
      case Replied(_) => (Answered(true), Some((content, sessionId)))
  }
}
