/**
 * The front end's auth slice: the signed-in user and the access token,
 * with the token mirrored into the browser's `localStorage` under
 * `accessKey`. `localStorage` is modelled as a map owned by the slice.
 */
module UserSlice {
  import opened Common

  /** The user object the login response carries. */
  datatype UserProfile = UserProfile(id: string, name: string, email: string)

  /** `payload.token` is truthy: present and not the empty string. */
  predicate Truthy(token: Option<string>)
  {
    token.Some? && token.value != ""
  }

  class AuthSlice {
    var user: Option<UserProfile>
    var token: Option<string>
    var storage: map<string, string>
    const accessKey: string

    /** The token in the state is the one the store holds under `accessKey`. */
    predicate Valid()
      reads this
    {
      token.Some? ==> accessKey in storage && storage[accessKey] == token.value
    }

    /**
     * `initialState`: the token is read back from the store (`|| null`
     * turns an empty value into null); the parsed "user" entry is passed in.
     */
    constructor (accessKey: string, storage: map<string, string>, storedUser: Option<UserProfile>)
      ensures Valid()
      ensures this.accessKey == accessKey && this.storage == storage && user == storedUser
      ensures token == (if accessKey in storage && storage[accessKey] != "" then Some(storage[accessKey]) else None)
    {
      this.accessKey := accessKey;
      this.storage := storage;
      user := storedUser;
      token := if accessKey in storage && storage[accessKey] != "" then Some(storage[accessKey]) else None;
    }

    /** `setUser`: the user is replaced; a truthy token replaces the state token and the stored one. */
    method SetUser(payloadUser: Option<UserProfile>, payloadToken: Option<string>)
      requires Valid()
      modifies this
      ensures Valid()
      ensures user == payloadUser
      ensures Truthy(payloadToken) ==> token == payloadToken && storage == old(storage)[accessKey := payloadToken.value]
      ensures !Truthy(payloadToken) ==> token == old(token) && storage == old(storage)
    {
      user := payloadUser;
      if Truthy(payloadToken) {
        token := payloadToken;
        storage := storage[accessKey := payloadToken.value];
      }
    }

    /** `logout`: user and token become null and the stored token is removed. */
    method Logout()
      requires Valid()
      modifies this
      ensures Valid()
      ensures user.None? && token.None?
      ensures storage == old(storage) - {accessKey}
      ensures accessKey !in storage
    {
      user := None;
      token := None;
      storage := storage - {accessKey};
    }
  }

  /** A token set by `setUser` is what a fresh slice built over the same store reads back. */
  method SetUserThenReload(accessKey: string, storage: map<string, string>, u: UserProfile, t: string)
    returns (reloaded: Option<string>)
    requires t != ""
    ensures reloaded == Some(t)
  {
    var slice := new AuthSlice(accessKey, storage, None);
    slice.SetUser(Some(u), Some(t));
    var reread := new AuthSlice(accessKey, slice.storage, None);
    reloaded := reread.token;
  }

  /** After `logout`, a fresh slice over the same store starts signed out. */
  method LogoutThenReload(accessKey: string, storage: map<string, string>)
    returns (reloaded: Option<string>)
    ensures reloaded.None?
  {
    var slice := new AuthSlice(accessKey, storage, None);
    slice.Logout();
    var reread := new AuthSlice(accessKey, slice.storage, None);
    reloaded := reread.token;
  }
}
