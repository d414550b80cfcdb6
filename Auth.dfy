/** Sign-in with a username and password: the `authorize` guard chain with its `lastLogin`
    write, and the `jwt` and `session` callbacks that carry the user's id and name into
    the session. The password hash comparison is a parameter. */
module Auth {
  import opened Wrappers
  import opened Records
  import Seqs
  import Text

  /** Lifetime of a session, in seconds: one day. */
  const SessionMaxAge: int := 24 * 60 * 60

  datatype Credentials = Credentials(username: Option<string>, password: Option<string>)

  /** What `authorize` hands to the session layer; its email and image are always null. */
  datatype SignedInUser = SignedInUser(id: string, name: string)

  predicate UsernamesUnique(users: seq<User>) {
    forall i, j :: 0 <= i < j < |users| ==> users[i].username != users[j].username
  }

  predicate IdsUnique(users: seq<User>) {
    forall i, j :: 0 <= i < j < |users| ==> users[i].id != users[j].id
  }

  /** `findUnique({ where: { username } })`. */
  function FindUser(users: seq<User>, username: string): (r: Option<nat>)
    requires UsernamesUnique(users)
    ensures r.Some? <==> exists k :: 0 <= k < |users| && users[k].username == username
    ensures r.Some? ==> r.value < |users| && users[r.value].username == username
    ensures forall k :: 0 <= k < |users| && users[k].username == username ==> r == Some(k)
  {
    var r := Seqs.IndexWhere(users, (u: User) => u.username == username);
    assert r.Some? ==> users[r.value].username == username;
    r
  }

  /** `user.name ?? user.username`: a stored name wins even when it is empty. */
  function DisplayName(u: User): (name: string)
    ensures u.name.Some? ==> name == u.name.value
    ensures u.name.None? ==> name == u.username
  {
    match u.name
    case Some(n) => n
    case None => u.username
  }

  /** The guards of `authorize`: both fields present and non-empty, a user with that
      username, and a password that `compare` accepts against that user's hash. The result
      is the index of the signed-in user. */
  function CheckCredentials(users: seq<User>, credentials: Option<Credentials>, compare: (string, string) -> bool): (r: Option<nat>)
    requires UsernamesUnique(users)
    ensures r.Some? <==>
      credentials.Some? && Text.Truthy(credentials.value.username) && Text.Truthy(credentials.value.password) &&
      exists k :: 0 <= k < |users| && users[k].username == credentials.value.username.value &&
        compare(credentials.value.password.value, users[k].passwordHash)
    ensures r.Some? ==> r.value < |users| && users[r.value].username == credentials.value.username.value
  {
    if credentials.None? || !Text.Truthy(credentials.value.username) || !Text.Truthy(credentials.value.password) then None
    else
      match FindUser(users, credentials.value.username.value)
      case None => None
      case Some(k) =>
        if compare(credentials.value.password.value, users[k].passwordHash) then Some(k) else None
  }

  class UserTable {
    var users: seq<User>

    ghost predicate Valid()
      reads this
    {
      UsernamesUnique(users) && IdsUnique(users)
    }

    constructor (initial: seq<User>)
      requires UsernamesUnique(initial) && IdsUnique(initial)
      ensures Valid() && users == initial
    {
      users := initial;
    }

    /** `authorize`: on success the signed-in user's `lastLogin` becomes `now` and nothing
        else in the table changes; on failure the table is untouched. */
    method Authorize(credentials: Option<Credentials>, compare: (string, string) -> bool, now: int)
      returns (r: Option<SignedInUser>)
      requires Valid()
      modifies this
      ensures Valid()
      ensures CheckCredentials(old(users), credentials, compare).None? ==> r.None? && users == old(users)
      ensures CheckCredentials(old(users), credentials, compare).Some? ==>
        var k := CheckCredentials(old(users), credentials, compare).value;
        && users == old(users)[k := old(users)[k].(lastLogin := Some(now))]
        && r == Some(SignedInUser(old(users)[k].id, DisplayName(old(users)[k])))
    {
      var found := CheckCredentials(users, credentials, compare);
      if found.None? {
        return None;
      }
      var k := found.value;
      var user := users[k];
      users := users[k := user.(lastLogin := Some(now))];
      r := Some(SignedInUser(user.id, DisplayName(user)));
    }
  }

  /** The signed token; next-auth keeps more claims, the model only the two it sets. */
  class Token {
    var id: Option<string>
    var name: Option<string>

    constructor (id: Option<string>, name: Option<string>)
      ensures this.id == id && this.name == name
    {
      this.id := id;
      this.name := name;
    }
  }

  class SessionUser {
    var id: Option<string>
    var name: Option<string>

    constructor ()
      ensures id.None? && name.None?
    {
      id := None;
      name := None;
    }
  }

  class Session {
    var user: SessionUser?

    constructor (user: SessionUser?)
      ensures this.user == user
    {
      this.user := user;
    }
  }

  /** The `jwt` callback: the user is present only on the sign-in request. Each claim is
      copied only when the user supplies a non-empty value for it. */
  method Jwt(token: Token, user: Option<SignedInUser>) returns (t: Token)
    modifies token
    ensures t == token
    ensures user.Some? && user.value.id != "" ==> token.id == Some(user.value.id)
    ensures !(user.Some? && user.value.id != "") ==> token.id == old(token.id)
    ensures user.Some? && user.value.name != "" ==> token.name == Some(user.value.name)
    ensures !(user.Some? && user.value.name != "") ==> token.name == old(token.name)
  {
    if user.Some? && user.value.id != "" {
      token.id := Some(user.value.id);
    }
    if user.Some? && user.value.name != "" {
      token.name := Some(user.value.name);
    }
    t := token;
  }

  /** The `session` callback: when the session has a user, its id and name are taken from
      the token (an absent claim stays absent). */
  method SessionCallback(session: Session, token: Token) returns (s: Session)
    modifies session.user
    ensures s == session && session.user == old(session.user)
    ensures session.user != null ==> session.user.id == token.id && session.user.name == token.name
  {
    if session.user != null {
      session.user.id := token.id;
      session.user.name := token.name;
    }
    s := session;
  }
}
