/** Users over the store: creation with a unique email, and lookups. */
module UserService {
  import opened Common
  import opened ApiRecords
  import opened Store

  /**
   * `createUser({ name, email })`: 400 when the email is taken, and
   * nothing is created; otherwise exactly one user is added.
   */
  method CreateUser(db: Database, name: string, email: string) returns (r: Result<nat, ApiError>)
    requires db.Valid()
    modifies db
    ensures db.Valid()
    ensures db.agents == old(db.agents) && db.documents == old(db.documents) && db.embeddings == old(db.embeddings)
    ensures db.sessions == old(db.sessions) && db.messages == old(db.messages)
    ensures (exists i :: 0 <= i < |old(db.users)| && old(db.users)[i].email == email) ==>
              r == Err(Fail(400, "User with this email already exists")) && db.users == old(db.users)
    ensures (forall i :: 0 <= i < |old(db.users)| ==> old(db.users)[i].email != email) ==>
              r == Ok(|old(db.users)|) && db.users == old(db.users) + [UserRow(name, email)]
  {
    var existing := UserWithEmail(db.users, email);
    if existing.Some? {
      return Err(Fail(400, "User with this email already exists"));
    }
    db.users := db.users + [UserRow(name, email)];
    r := Ok(|db.users| - 1);
  }

  /** What `getUserById` loads: the user and the user's agents. */
  datatype UserDetail = UserDetail(user: UserRow, agents: seq<AgentRow>)

  /** `getUserById(userId)`: 404 "User not found" when the user is absent. */
  function GetUserById(db: Database, userId: nat): (r: Result<UserDetail, ApiError>)
    reads db
    ensures r.Err? <==> userId >= |db.users|
    ensures r.Err? ==> r.error == Fail(404, "User not found")
    ensures r.Ok? ==> r.value.user == db.users[userId] && r.value.agents == AgentsOf(db.agents, userId)
  {
    if userId >= |db.users| then Err(Fail(404, "User not found"))
    else Ok(UserDetail(db.users[userId], AgentsOf(db.agents, userId)))
  }

  /** `getAllUsers()`: every user, each with its agents, in insertion order. */
  function GetAllUsers(db: Database): (r: seq<UserDetail>)
    reads db
    ensures |r| == |db.users|
    ensures forall i :: 0 <= i < |r| ==> r[i] == UserDetail(db.users[i], AgentsOf(db.agents, i))
  {
    seq(|db.users|, i requires 0 <= i < |db.users| reads db => UserDetail(db.users[i], AgentsOf(db.agents, i)))
  }

  /** A second registration with the same email fails and the first user is kept. */
  method RegisterTwice(db: Database, name1: string, name2: string, email: string)
    returns (first: Result<nat, ApiError>, second: Result<nat, ApiError>)
    requires db.Valid()
    modifies db
    ensures second == Err(Fail(400, "User with this email already exists"))
    ensures first.Ok? ==> first.value < |db.users| && db.users[first.value] == UserRow(name1, email) && |db.users| == |old(db.users)| + 1
  {
    first := CreateUser(db, name1, email);
    assert exists i :: 0 <= i < |db.users| && db.users[i].email == email by {
      var e := UserWithEmail(old(db.users), email);
      if e.Some? {
        assert db.users[e.value].email == email;
      } else {
        assert db.users[|db.users| - 1].email == email;
      }
    }
    second := CreateUser(db, name2, email);
  }
}
