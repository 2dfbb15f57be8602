/**
 * Session lifecycle over the store: starting a session reuses the agent's
 * open session if there is one, and a session can be ended once.
 */
module SessionService {
  import opened Common
  import opened ApiRecords
  import opened Store

  /**
   * `startSession(agentId)`: 404 for an unknown agent; the agent's open
   * session when it has one; otherwise a new open session started `now`.
   */
  method StartSession(db: Database, agentId: nat, now: int) returns (r: Result<nat, ApiError>)
    requires db.Valid()
    modifies db
    ensures db.Valid()
    ensures db.users == old(db.users) && db.agents == old(db.agents) && db.documents == old(db.documents)
    ensures db.embeddings == old(db.embeddings) && db.messages == old(db.messages)
    ensures agentId >= |old(db.agents)| ==> r == Err(Fail(404, "Agent not found")) && db.sessions == old(db.sessions)
    ensures agentId < |old(db.agents)| && OpenSessionOf(old(db.sessions), agentId).Some? ==>
              r == Ok(OpenSessionOf(old(db.sessions), agentId).value) && db.sessions == old(db.sessions)
    ensures agentId < |old(db.agents)| && OpenSessionOf(old(db.sessions), agentId).None? ==>
              r == Ok(|old(db.sessions)|) && db.sessions == old(db.sessions) + [SessionRow(agentId, now, None)]
    ensures r.Ok? ==> r.value < |db.sessions| && db.sessions[r.value].agentId == agentId && db.sessions[r.value].endedAt.None?
  {
    if agentId >= |db.agents| {
      return Err(Fail(404, "Agent not found"));
    }
    var active := OpenSessionOf(db.sessions, agentId);
    if active.Some? {
      return Ok(active.value);
    }
    db.sessions := db.sessions + [SessionRow(agentId, now, None)];
    r := Ok(|db.sessions| - 1);
  }

  /**
   * `endSession(sessionId)`: 404 for an unknown session, 400 for one that
   * has already ended; otherwise only its `ended_at` is set.
   */
  method EndSession(db: Database, sessionId: nat, now: int) returns (r: Result<SessionRow, ApiError>)
    requires db.Valid()
    modifies db
    ensures db.Valid()
    ensures db.users == old(db.users) && db.agents == old(db.agents) && db.documents == old(db.documents)
    ensures db.embeddings == old(db.embeddings) && db.messages == old(db.messages)
    ensures sessionId >= |old(db.sessions)| ==> r == Err(Fail(404, "Session not found")) && db.sessions == old(db.sessions)
    ensures sessionId < |old(db.sessions)| && old(db.sessions)[sessionId].endedAt.Some? ==>
              r == Err(Fail(400, "Session is already ended")) && db.sessions == old(db.sessions)
    ensures sessionId < |old(db.sessions)| && old(db.sessions)[sessionId].endedAt.None? ==>
              && r == Ok(old(db.sessions)[sessionId].(endedAt := Some(now)))
              && db.sessions == old(db.sessions)[sessionId := r.value]
  {
    if sessionId >= |db.sessions| {
      return Err(Fail(404, "Session not found"));
    }
    var session := db.sessions[sessionId];
    if session.endedAt.Some? {
      return Err(Fail(400, "Session is already ended"));
    }
    var ended := session.(endedAt := Some(now));
    db.sessions := db.sessions[sessionId := ended];
    r := Ok(ended);
  }

  /** What `getSessionById` loads: the session, its agent and the agent's user, and its messages. */
  datatype SessionDetail = SessionDetail(session: SessionRow, agent: Option<AgentRow>, user: Option<UserRow>,
                                         messages: seq<MessageRow>)

  /** `getSessionById(sessionId)`: 404 when the session is absent. */
  function GetSessionById(db: Database, sessionId: nat): (r: Result<SessionDetail, ApiError>)
    reads db
    ensures r.Err? <==> sessionId >= |db.sessions|
    ensures r.Err? ==> r.error == Fail(404, "Session not found")
    ensures r.Ok? ==> r.value.session == db.sessions[sessionId] && r.value.messages == MessagesOf(db.messages, sessionId)
    ensures r.Ok? ==> var s := db.sessions[sessionId];
              && (r.value.agent.Some? <==> s.agentId < |db.agents|)
              && (r.value.agent.Some? ==> r.value.agent.value == db.agents[s.agentId])
              && (r.value.user.Some? <==> r.value.agent.Some? && r.value.agent.value.userId < |db.users|)
              && (r.value.user.Some? ==> r.value.user.value == db.users[r.value.agent.value.userId])
  {
    if sessionId >= |db.sessions| then Err(Fail(404, "Session not found"))
    else
      var s := db.sessions[sessionId];
      var agent := if s.agentId < |db.agents| then Some(db.agents[s.agentId]) else None;
      var user := if agent.Some? && agent.value.userId < |db.users| then Some(db.users[agent.value.userId]) else None;
      Ok(SessionDetail(s, agent, user, MessagesOf(db.messages, sessionId)))
  }

  /** `getActiveSession(agentId)`: the agent's open session with its messages, or null. */
  function GetActiveSession(db: Database, agentId: nat): (r: Option<(nat, seq<MessageRow>)>)
    reads db
    ensures r.None? <==> forall i :: 0 <= i < |db.sessions| ==> db.sessions[i].agentId != agentId || db.sessions[i].endedAt.Some?
    ensures r.Some? ==> var (id, ms) := r.value;
              && id < |db.sessions| && db.sessions[id].agentId == agentId && db.sessions[id].endedAt.None?
              && ms == MessagesOf(db.messages, id)
  {
    var open := OpenSessionOf(db.sessions, agentId);
    if open.Some? then Some((open.value, MessagesOf(db.messages, open.value))) else None
  }

  /** Starting twice in a row returns the same session and creates only one. */
  method StartTwice(db: Database, agentId: nat, now1: int, now2: int) returns (first: Result<nat, ApiError>, second: Result<nat, ApiError>)
    requires db.Valid()
    modifies db
    ensures first == second
    ensures |db.sessions| <= |old(db.sessions)| + 1
  {
    first := StartSession(db, agentId, now1);
    second := StartSession(db, agentId, now2);
  }

  /** Ending a session twice fails the second time with 400, and the first end time stays. */
  method EndTwice(db: Database, sessionId: nat, now1: int, now2: int) returns (first: Result<SessionRow, ApiError>, second: Result<SessionRow, ApiError>)
    requires db.Valid()
    modifies db
    ensures first.Ok? ==> second == Err(Fail(400, "Session is already ended")) && sessionId < |db.sessions| && db.sessions[sessionId].endedAt == Some(now1)
  {
    first := EndSession(db, sessionId, now1);
    second := EndSession(db, sessionId, now2);
  }
}
