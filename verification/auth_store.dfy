/**
 * `store/authStore.ts`: the signed-in user and token of the frontend, of
 * which `partialize` chooses the part that is persisted. The
 * `localStorage` writes beside `login` and `logout` are not modelled.
 */
module AuthStore {
  import opened Base

  /** The frontend user record; the preferences it may carry are not modelled. */
  datatype User = User(
    id: string, username: string, email: string, nickname: Option<string>, avatar: Option<string>,
    is_active: bool, created_at: string, updated_at: string)

  /** A `Partial<User>`: `Some` for each key the update carries. */
  datatype Patch = Patch(
    id: Option<string>, username: Option<string>, email: Option<string>,
    nickname: Option<string>, avatar: Option<string>, is_active: Option<bool>,
    created_at: Option<string>, updated_at: Option<string>)

  datatype State = State(
    user: Option<User>, token: Option<string>, isAuthenticated: bool, isLoading: bool, error: Option<string>)

  /** The part of the state that is persisted. */
  datatype Persisted = Persisted(user: Option<User>, token: Option<string>, isAuthenticated: bool)

  /** The state the store is created with. */
  const Initial := State(None, None, false, false, None)

  /** `login`: the user and token are recorded and any error is cleared. */
  function Login(s: State, user: User, token: string): (r: State)
    ensures r.user == Some(user) && r.token == Some(token) && r.isAuthenticated && r.error == None
    ensures r.isLoading == s.isLoading
  {
    s.(user := Some(user), token := Some(token), isAuthenticated := true, error := None)
  }

  /** `logout`: the user and token are dropped and any error is cleared. */
  function Logout(s: State): (r: State)
    ensures r.user == None && r.token == None && !r.isAuthenticated && r.error == None
    ensures r.isLoading == s.isLoading
  {
    s.(user := None, token := None, isAuthenticated := false, error := None)
  }

  /** Logging out forgets the session entirely: it does not matter who was signed in. */
  lemma LogoutForgetsLogin(s: State, user: User, token: string)
    ensures Logout(Login(s, user, token)) == Logout(s)
    ensures Logout(Logout(s)) == Logout(s)
  {
  }

  /** `setLoading`. */
  function SetLoading(s: State, loading: bool): (r: State)
    ensures r.isLoading == loading
    ensures r.(isLoading := s.isLoading) == s
  {
    s.(isLoading := loading)
  }

  /** `setError`: records the error and ends loading. */
  function SetError(s: State, error: Option<string>): (r: State)
    ensures r.error == error && !r.isLoading
    ensures r.user == s.user && r.token == s.token && r.isAuthenticated == s.isAuthenticated
  {
    s.(error := error, isLoading := false)
  }

  /** `clearError`. */
  function ClearError(s: State): (r: State)
    ensures r.error == None
    ensures r.(error := s.error) == s
  {
    s.(error := None)
  }

  /** The field after a spread: the update's value when it carries the key. */
  function Pick<T>(update: Option<T>, current: T): T {
    if update.Some? then update.value else current
  }

  /** `{ ...user, ...userData }`. */
  function Merge(u: User, p: Patch): User {
    User(
      Pick(p.id, u.id), Pick(p.username, u.username), Pick(p.email, u.email),
      if p.nickname.Some? then p.nickname else u.nickname,
      if p.avatar.Some? then p.avatar else u.avatar,
      Pick(p.is_active, u.is_active), Pick(p.created_at, u.created_at), Pick(p.updated_at, u.updated_at))
  }

  /** `updateUser`: merges into the signed-in user, and does nothing when nobody is signed in. */
  function UpdateUser(s: State, p: Patch): (r: State)
    ensures s.user == None ==> r == s
    ensures s.user.Some? ==> r.user == Some(Merge(s.user.value, p))
    ensures r.(user := s.user) == s
  {
    if s.user.Some? then s.(user := Some(Merge(s.user.value, p))) else s
  }

  /** Repeating an update changes nothing more. */
  lemma UpdateUserIdempotent(s: State, p: Patch)
    ensures UpdateUser(UpdateUser(s, p), p) == UpdateUser(s, p)
  {
  }

  /** `partialize`: the user, the token and the signed-in flag. */
  function Partialize(s: State): (p: Persisted)
    ensures p.user == s.user && p.token == s.token && p.isAuthenticated == s.isAuthenticated
  {
    Persisted(s.user, s.token, s.isAuthenticated)
  }

  /** Rehydration: the persisted part merged over the initial state, as zustand's default merge does. */
  function Rehydrate(p: Persisted): State {
    Initial.(user := p.user, token := p.token, isAuthenticated := p.isAuthenticated)
  }

  /**
   * Loading and errors are never persisted: a reload keeps the session and
   * starts idle with no error, whatever the store held.
   */
  lemma ReloadKeepsSession(s: State, error: Option<string>, loading: bool)
    ensures Rehydrate(Partialize(s)) == s.(isLoading := false, error := None)
    ensures Partialize(SetError(s, error)) == Partialize(s)
    ensures Partialize(SetLoading(s, loading)) == Partialize(s)
    ensures Rehydrate(Partialize(Logout(s))) == Initial
  {
  }
}
