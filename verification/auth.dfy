/**
 * The authentication session store: the current bearer token and user,
 * kept in memory and mirrored in the browser's persistent key-value
 * storage under the keys `token` and `user`.
 *
 * `Session` is the store's state as a value and `Init`, `LoggedIn` and
 * `LoggedOut` are its transitions; the class `AuthStore` is the store itself,
 * whose methods are proved to perform exactly those transitions.
 */
module Auth {
  import opened Wrappers

  const TokenKey: string := "token"
  const UserKey: string := "user"

  /**
   * The serialised form of a user record.  Serialising an object never
   * yields the empty text or the text `null`.
   */
  type UserJson = s: string | s != "" && s != "null" witness "{}"

  /** A user record, opaque to the store apart from its serialised form. */
  datatype User = User(json: UserJson)

  /** The browser's persistent key-value storage. */
  type Storage = map<string, string>

  datatype Session = Session(token: Option<string>, user: Option<User>, storage: Storage)

  /** The two states of the session machine. */
  datatype State = Anonymous | Authenticated

  /** The token restored from storage: a missing or empty stored value gives no token. */
  function StoredToken(storage: Storage): (t: Option<string>)
    ensures t.None? <==> TokenKey !in storage || storage[TokenKey] == ""
    ensures t.Some? ==> t.value == storage[TokenKey] && t.value != ""
  {
    if TokenKey in storage && storage[TokenKey] != "" then Some(storage[TokenKey]) else None
  }

  /** The user restored from storage: a missing, empty or `null` stored value gives no user. */
  function StoredUser(storage: Storage): (u: Option<User>)
    ensures u.None? <==> UserKey !in storage || storage[UserKey] in {"", "null"}
    ensures u.Some? ==> u.value.json == storage[UserKey]
  {
    if UserKey in storage && storage[UserKey] != "" && storage[UserKey] != "null"
    then Some(User(storage[UserKey])) else None
  }

  /** The store as created on page load, from what storage holds. */
  function Init(storage: Storage): Session {
    Session(StoredToken(storage), StoredUser(storage), storage)
  }

  function LoggedIn(s: Session, token: string, user: User): Session {
    Session(Some(token), Some(user), s.storage[TokenKey := token][UserKey := user.json])
  }

  function LoggedOut(s: Session): Session {
    Session(None, None, s.storage - {TokenKey, UserKey})
  }

  /** `isAuthenticated`: the token is present and not empty. */
  predicate IsAuthenticated(s: Session) {
    s.token.Some? && s.token.value != ""
  }

  function StateOf(s: Session): (st: State)
    ensures st == Authenticated <==> IsAuthenticated(s)
  {
    if IsAuthenticated(s) then Authenticated else Anonymous
  }

  /**
   * The store agrees with its storage: reloading the page would restore the
   * same user and the same authentication state.
   */
  predicate Coherent(s: Session) {
    s.user == StoredUser(s.storage) && StateOf(s) == StateOf(Init(s.storage))
  }

  /** A freshly created store is coherent. */
  lemma InitCoherent(storage: Storage)
    ensures Coherent(Init(storage))
    ensures Init(storage).storage == storage
  {
  }

  /** Logging in authenticates exactly when the token is not empty, and keeps coherence. */
  lemma LoginState(s: Session, token: string, user: User)
    ensures StateOf(LoggedIn(s, token, user)) == Authenticated <==> token != ""
    ensures Coherent(LoggedIn(s, token, user))
  {
  }

  /** A reload after login restores the same session exactly when the token is not empty. */
  lemma LoginSurvivesReload(s: Session, token: string, user: User)
    ensures Init(LoggedIn(s, token, user).storage) == LoggedIn(s, token, user) <==> token != ""
  {
    var after := LoggedIn(s, token, user);
    assert after.storage[TokenKey] == token;
    assert after.storage[UserKey] == user.json;
    if token == "" {
      assert Init(after.storage).token == None;
    }
  }

  /** Logging out makes the session anonymous and removes only the two session keys. */
  lemma LogoutClears(s: Session)
    ensures StateOf(LoggedOut(s)) == Anonymous && LoggedOut(s).user == None
    ensures TokenKey !in LoggedOut(s).storage && UserKey !in LoggedOut(s).storage
    ensures forall k :: k != TokenKey && k != UserKey ==>
      (k in LoggedOut(s).storage <==> k in s.storage) &&
      (k in s.storage ==> LoggedOut(s).storage[k] == s.storage[k])
    ensures Init(LoggedOut(s).storage) == LoggedOut(s)
  {
  }

  /** Logging out twice is the same as logging out once. */
  lemma LogoutIdempotent(s: Session)
    ensures LoggedOut(LoggedOut(s)) == LoggedOut(s)
  {
    assert LoggedOut(LoggedOut(s)).storage == LoggedOut(s).storage;
  }

  /** A logout forgets everything a preceding login wrote. */
  lemma LogoutUndoesLogin(s: Session, token: string, user: User)
    ensures LoggedOut(LoggedIn(s, token, user)) == LoggedOut(s)
  {
    assert LoggedOut(LoggedIn(s, token, user)).storage == LoggedOut(s).storage;
  }

  /** The store object (`useAuthStore`). */
  class AuthStore {
    var token: Option<string>
    var user: Option<User>
    /** The browser storage the store writes through to. */
    var storage: Storage

    function Snapshot(): Session
      reads this
    {
      Session(token, user, storage)
    }

    ghost predicate Valid()
      reads this
    {
      Coherent(Snapshot())
    }

    /** Creating the store reads `token` and `user` from storage. */
    constructor (storage: Storage)
      ensures Snapshot() == Init(storage)
      ensures Valid()
    {
      this.token := StoredToken(storage);
      this.user := StoredUser(storage);
      this.storage := storage;
    }

    /** `login(token, user)`: write both storage keys, then set both fields. */
    method Login(t: string, u: User)
      requires Valid()
      modifies this
      ensures Snapshot() == LoggedIn(old(Snapshot()), t, u)
      ensures Valid()
    {
      storage := storage[TokenKey := t];
      storage := storage[UserKey := u.json];
      token, user := Some(t), Some(u);
      LoginState(old(Snapshot()), t, u);
    }

    /** `logout()`: remove both storage keys, then clear both fields. */
    method Logout()
      requires Valid()
      modifies this
      ensures Snapshot() == LoggedOut(old(Snapshot()))
      ensures Valid()
    {
      storage := storage - {TokenKey};
      storage := storage - {UserKey};
      token, user := None, None;
      assert storage == old(storage) - {TokenKey, UserKey};
      LogoutClears(old(Snapshot()));
    }

    /** `isAuthenticated()`. */
    function IsAuthenticated(): (b: bool)
      reads this
      ensures b <==> StateOf(Snapshot()) == Authenticated
    {
      token.Some? && token.value != ""
    }
  }
}
