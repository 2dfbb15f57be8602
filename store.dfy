/**
 * The relational store behind the services: one sequence of rows per
 * table, a row's id being its position. Only the columns the services
 * read or write are kept.
 */
module Store {
  import opened Common

  datatype UserRow = UserRow(name: string, email: string)

  datatype AgentRow = AgentRow(userId: nat, name: string, prompt: string, apiKey: Option<string>)

  /**
   * The `file_path` column of a document, kept as the parts its text is
   * built from: the clock reading, the random suffix and the original
   * file name, whose extension ends the path.
   */
  datatype UploadPath = UploadPath(stamp: nat, suffix: string, originalname: string)

  datatype DocumentRow = DocumentRow(
    agentId: nat, fileName: string, fileType: string, filePath: UploadPath, contentText: string)

  /** An embedding row; `metadata` holds the chunk index and the text length. */
  datatype EmbeddingRow = EmbeddingRow(
    documentId: nat, chunkText: string, pineconeId: string, chunkIndex: nat, textLength: nat)

  /** A session row; `endedAt` is null while the session is open. */
  datatype SessionRow = SessionRow(agentId: nat, startedAt: int, endedAt: Option<int>)

  /** The `role` column's enum. */
  datatype MessageRole = UserRole | BotRole

  datatype MessageRow = MessageRow(sessionId: nat, role: MessageRole, text: string, audioUrl: Option<string>)

  /** Every email belongs to one user at most. */
  predicate UniqueEmails(users: seq<UserRow>)
  {
    forall i, j :: 0 <= i < j < |users| ==> users[i].email != users[j].email
  }

  /** No agent has two sessions with `ended_at` null. */
  predicate OneOpenSessionPerAgent(sessions: seq<SessionRow>)
  {
    forall i, j :: 0 <= i < j < |sessions| && sessions[i].agentId == sessions[j].agentId ==>
      sessions[i].endedAt.Some? || sessions[j].endedAt.Some?
  }

  /** The first user with this email, as `findOne({ where: { email } })` finds it. */
  function UserWithEmail(users: seq<UserRow>, email: string): (r: Option<nat>)
    ensures r.Some? ==> r.value < |users| && users[r.value].email == email
    ensures r.None? <==> forall i :: 0 <= i < |users| ==> users[i].email != email
  {
    if users == [] then None
    else if users[0].email == email then Some(0)
    else
      var rest := UserWithEmail(users[1..], email);
      if rest.Some? then Some(rest.value + 1) else None
  }

  /** An open session of the agent, as `findOne({ where: { agent_id, ended_at: null } })` finds it. */
  function OpenSessionOf(sessions: seq<SessionRow>, agentId: nat): (r: Option<nat>)
    ensures r.Some? ==> r.value < |sessions| && sessions[r.value].agentId == agentId && sessions[r.value].endedAt.None?
    ensures r.None? <==> forall i :: 0 <= i < |sessions| ==> sessions[i].agentId != agentId || sessions[i].endedAt.Some?
  {
    if sessions == [] then None
    else if sessions[0].agentId == agentId && sessions[0].endedAt.None? then Some(0)
    else
      var rest := OpenSessionOf(sessions[1..], agentId);
      if rest.Some? then Some(rest.value + 1) else None
  }

  /** Under the one-open-session rule, the open session an agent has is the only one. */
  lemma OpenSessionUnique(sessions: seq<SessionRow>, agentId: nat, i: nat)
    requires OneOpenSessionPerAgent(sessions)
    requires i < |sessions| && sessions[i].agentId == agentId && sessions[i].endedAt.None?
    ensures OpenSessionOf(sessions, agentId) == Some(i)
  {
  }

  /** The messages of a session in the order they were stored. */
  function MessagesOf(messages: seq<MessageRow>, sessionId: nat): (r: seq<MessageRow>)
    ensures forall m :: m in r <==> m in messages && m.sessionId == sessionId
  {
    Where(messages, (m: MessageRow) => m.sessionId == sessionId)
  }

  /** A stored message joins the end of its own session's list and no other. */
  lemma MessagesOfAppend(messages: seq<MessageRow>, m: MessageRow, sessionId: nat)
    ensures MessagesOf(messages + [m], sessionId)
         == MessagesOf(messages, sessionId) + (if m.sessionId == sessionId then [m] else [])
  {
    WhereAppend(messages, m, (m: MessageRow) => m.sessionId == sessionId);
  }

  /** The agents of a user, in insertion order. */
  function AgentsOf(agents: seq<AgentRow>, userId: nat): (r: seq<AgentRow>)
    ensures forall a :: a in r <==> a in agents && a.userId == userId
  {
    Where(agents, (a: AgentRow) => a.userId == userId)
  }

  /** A new agent joins the end of its own user's list, and no other user's. */
  lemma AgentsOfAppend(agents: seq<AgentRow>, a: AgentRow, userId: nat)
    ensures AgentsOf(agents + [a], userId) == AgentsOf(agents, userId) + (if a.userId == userId then [a] else [])
  {
    WhereAppend(agents, a, (a: AgentRow) => a.userId == userId);
  }

  /** The positions of the rows a `where` clause selects, in table order. */
  function Positions<T>(rows: seq<T>, selected: T -> bool): (ids: seq<nat>)
    ensures forall k :: 0 <= k < |ids| ==> ids[k] < |rows| && selected(rows[ids[k]])
    ensures forall i :: 0 <= i < |rows| && selected(rows[i]) ==> i in ids
    ensures forall j, k :: 0 <= j < k < |ids| ==> ids[j] < ids[k]
  {
    if rows == [] then []
    else
      var n := |rows| - 1;
      Positions(rows[..n], selected) + (if selected(rows[n]) then [n] else [])
  }

  /** The rows a `where` clause selects, in table order. */
  function Where<T>(rows: seq<T>, selected: T -> bool): (r: seq<T>)
    ensures |r| <= |rows|
    ensures forall x :: x in r ==> x in rows && selected(x)
    ensures forall i :: 0 <= i < |rows| && selected(rows[i]) ==> rows[i] in r
  {
    if rows == [] then []
    else
      var n := |rows| - 1;
      assert forall i :: 0 <= i < n ==> rows[..n][i] == rows[i];
      Where(rows[..n], selected) + (if selected(rows[n]) then [rows[n]] else [])
  }

  /** A row added to the table joins the end of the selection exactly when it is selected. */
  lemma WhereAppend<T>(rows: seq<T>, x: T, selected: T -> bool)
    ensures Where(rows + [x], selected) == Where(rows, selected) + (if selected(x) then [x] else [])
  {
    assert (rows + [x])[..|rows|] == rows;
  }

  class Database {
    var users: seq<UserRow>
    var agents: seq<AgentRow>
    var documents: seq<DocumentRow>
    var embeddings: seq<EmbeddingRow>
    var sessions: seq<SessionRow>
    var messages: seq<MessageRow>

    /** The rules the services keep: unique emails and one open session per agent. */
    predicate Valid()
      reads this`users, this`sessions
    {
      UniqueEmails(users) && OneOpenSessionPerAgent(sessions)
    }

    constructor ()
      ensures Valid()
      ensures users == [] && agents == [] && documents == [] && embeddings == [] && sessions == [] && messages == []
    {
      users := [];
      agents := [];
      documents := [];
      embeddings := [];
      sessions := [];
      messages := [];
    }
  }
}
