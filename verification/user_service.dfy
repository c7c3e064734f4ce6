/**
 * `services/user_service.go`: registration, login, profile and preference
 * management. Database lookups and writes are inputs; password hashing and
 * checking are a hash result and a checking function supplied by the caller.
 */
module UserService {
  import opened Base
  import opened Models
  import UtilsAuth
  import UpdateMaps

  /** The preference row a user gets when none exists yet. */
  function DefaultPreference(userID: Uuid): (p: UserPreference)
    ensures p.UserID == userID && p.LLMModel == "gpt-3.5-turbo" && p.MaxTokens == 2000
    ensures p.ContextWindow == 10 && p.MemoryEnabled && p.SystemPrompt == ""
  {
    UserPreference(userID, "gpt-3.5-turbo", 2000, "", 10, true)
  }

  /**
   * `Register`. `existing` says whether a user with that username or email
   * was found, `hashed` is the outcome of hashing the password, `newID` the
   * ID the database assigns and `insertError` the outcome of the insert.
   * The preference row written afterwards does not affect the result: its
   * failure is only logged.
   */
  function Register(username: string, email: string, password: string, existing: bool,
                    hashed: Result<string>, newID: Uuid, insertError: Option<string>): (r: Result<User>)
    ensures !UtilsAuth.ValidateUsername(username) ==> r == Err("用户名格式不正确")
    ensures UtilsAuth.ValidateUsername(username) && !UtilsAuth.ValidateEmail(email) ==> r == Err("邮箱格式不正确")
    ensures (UtilsAuth.ValidateUsername(username) && UtilsAuth.ValidateEmail(email)
      && !UtilsAuth.ValidatePassword(password)) ==> r == Err("密码长度必须在6-128之间")
    ensures r.Ok? <==> (UtilsAuth.ValidateUsername(username) && UtilsAuth.ValidateEmail(email)
      && UtilsAuth.ValidatePassword(password) && !existing && hashed.Ok? && insertError.None?)
    ensures r.Ok? ==> r.value == User(newID, username, email, hashed.value, username, "", true)
  {
    if !UtilsAuth.ValidateUsername(username) then Err("用户名格式不正确")
    else if !UtilsAuth.ValidateEmail(email) then Err("邮箱格式不正确")
    else if !UtilsAuth.ValidatePassword(password) then Err("密码长度必须在6-128之间")
    else if existing then Err("用户名或邮箱已存在")
    else if hashed.Err? then Err("密码加密失败")
    else if insertError.Some? then Err("用户注册失败")
    else Ok(User(newID, username, email, hashed.value, username, "", true))
  }

  /** Invalid input is refused whatever the database and the hasher would say. */
  lemma RegisterValidatesFirst(username: string, email: string, password: string,
                               existing: bool, hashed: Result<string>, newID: Uuid, insertError: Option<string>)
    requires !(UtilsAuth.ValidateUsername(username) && UtilsAuth.ValidateEmail(email) && UtilsAuth.ValidatePassword(password))
    ensures Register(username, email, password, existing, hashed, newID, insertError)
         == Register(username, email, password, true, Err(""), NilUuid, Some(""))
  {
  }

  /**
   * `Login`. `lookup` is the user found by username or email;
   * `checkPassword(plain, hash)` is the bcrypt comparison.
   */
  function Login(lookup: Query<User>, password: string, checkPassword: (string, string) -> bool): (r: Result<User>)
    ensures lookup.NotFound? ==> r == Err("用户不存在")
    ensures lookup.Failed? ==> r == Err(lookup.error)
    ensures lookup.Found? && !lookup.row.IsActive ==> r == Err("用户已被禁用")
    ensures lookup.Found? && lookup.row.IsActive && !checkPassword(password, lookup.row.Password) ==> r == Err("密码错误")
    ensures r.Ok? <==> lookup.Found? && lookup.row.IsActive && checkPassword(password, lookup.row.Password)
    ensures r.Ok? ==> r.value == lookup.row
  {
    match lookup
    case NotFound => Err("用户不存在")
    case Failed(e) => Err(e)
    case Found(user) =>
      if !user.IsActive then Err("用户已被禁用")
      else if !checkPassword(password, user.Password) then Err("密码错误")
      else Ok(user)
  }

  /** A disabled account is refused before its password is looked at. */
  lemma LoginDisabledIgnoresPassword(user: User, p1: string, p2: string,
                                     check1: (string, string) -> bool, check2: (string, string) -> bool)
    requires !user.IsActive
    ensures Login(Found(user), p1, check1) == Login(Found(user), p2, check2)
  {
  }

  /** `GetUserByID`: `lookup` is the active user with that ID. */
  function GetUserByID(lookup: Query<User>): (r: Result<User>)
    ensures lookup.NotFound? ==> r == Err("用户不存在")
    ensures lookup.Failed? ==> r == Err(lookup.error)
    ensures lookup.Found? <==> r.Ok?
    ensures r.Ok? ==> r.value == lookup.row
  {
    match lookup
    case NotFound => Err("用户不存在")
    case Failed(e) => Err(e)
    case Found(user) => Ok(user)
  }

  /** The fields a profile update may change. */
  const ProfileFields: set<string> := {"nickname", "avatar"}

  /** The fields a preference update may change. */
  const PreferenceFields: set<string> :=
    {"llm_model", "temperature", "max_tokens", "system_prompt", "context_window", "memory_enabled"}

  /**
   * `UpdateProfile`: filters the update map and, when something is left,
   * issues the update. `issued` is the map sent to the database, if any;
   * `updateError` is that write's outcome.
   */
  method UpdateProfile<V>(updates: map<string, V>, updateError: Option<string>)
    returns (issued: Option<map<string, V>>, err: Option<string>)
    ensures issued.None? <==> updates.Keys * ProfileFields == {}
    ensures issued.Some? ==> (issued.value == UpdateMaps.Whitelisted(updates, ProfileFields)
      && issued.value != map[])
    ensures issued.None? ==> err == Some("没有有效的更新字段")
    ensures issued.Some? ==> (err == None <==> updateError == None)
    ensures issued.Some? && updateError.Some? ==> err == Some("用户资料更新失败")
  {
    var filtered := UpdateMaps.FilterUpdates(updates, ProfileFields);
    UpdateMaps.WhitelistedEmptyIff(updates, ProfileFields);
    if |filtered| == 0 {
      return None, Some("没有有效的更新字段");
    }
    issued := Some(filtered);
    err := if updateError.Some? then Some("用户资料更新失败") else None;
  }

  /**
   * `GetUserPreference`: the stored row, or, when there is none, the default
   * preference after inserting it; the insert's own error is returned as is.
   */
  function GetUserPreference(userID: Uuid, lookup: Query<UserPreference>, createError: Option<string>)
    : (r: Result<UserPreference>)
    ensures lookup.Found? ==> r == Ok(lookup.row)
    ensures lookup.NotFound? && createError.None? ==> r == Ok(DefaultPreference(userID))
    ensures lookup.NotFound? && createError.Some? ==> r == Err(createError.value)
    ensures lookup.Failed? ==> r == Err(lookup.error)
  {
    match lookup
    case Found(p) => Ok(p)
    case NotFound => if createError.Some? then Err(createError.value) else Ok(DefaultPreference(userID))
    case Failed(e) => Err(e)
  }

  /** The preference a new account gets at registration is the one a first lookup creates. */
  lemma RegisterAndLookupAgree(userID: Uuid)
    ensures GetUserPreference(userID, NotFound, None) == Ok(DefaultPreference(userID))
  {
  }

  /** `UpdateUserPreference`: as `UpdateProfile`, over the six preference fields. */
  method UpdateUserPreference<V>(updates: map<string, V>, updateError: Option<string>)
    returns (issued: Option<map<string, V>>, err: Option<string>)
    ensures issued.None? <==> updates.Keys * PreferenceFields == {}
    ensures issued.Some? ==> (issued.value == UpdateMaps.Whitelisted(updates, PreferenceFields)
      && issued.value != map[])
    ensures issued.None? ==> err == Some("没有有效的更新字段")
    ensures issued.Some? ==> (err == None <==> updateError == None)
    ensures issued.Some? && updateError.Some? ==> err == Some("用户偏好更新失败")
  {
    var filtered := UpdateMaps.FilterUpdates(updates, PreferenceFields);
    UpdateMaps.WhitelistedEmptyIff(updates, PreferenceFields);
    if |filtered| == 0 {
      return None, Some("没有有效的更新字段");
    }
    issued := Some(filtered);
    err := if updateError.Some? then Some("用户偏好更新失败") else None;
  }
}
