/**
 * `handlers/auth_handler.go`: registration, login and profile endpoints.
 * The decoded request body is `None` when it is not JSON of the request's
 * shape, and a decoded body that breaks a `binding` tag is refused alike; the user service is
 * the model of `services/user_service.go`, with its database results as
 * inputs; token generation is a function supplied by the caller.
 */
module AuthHandler {
  import opened Base
  import opened Models
  import GoStrings
  import UtilsAuth
  import UtilsCommon
  import UserService
  import UpdateMaps

  datatype Reply = Reply(status: int, code: string)

  datatype RegisterRequest = RegisterRequest(Username: string, Email: string, Password: string)
  datatype LoginRequest = LoginRequest(UsernameOrEmail: string, Password: string)
  datatype UpdateProfileRequest = UpdateProfileRequest(Nickname: string, Avatar: string)

  /**
   * `RegisterRequest`'s `binding` tags: all three fields required, 3..50
   * characters of username, 6..128 of password, and an email address as
   * the validator's `email` rule (`isEmail`) recognises one. The tags are
   * checked on the raw fields, before any cleaning.
   */
  predicate RegisterBinds(req: RegisterRequest, isEmail: string -> bool) {
    && req.Username != "" && 3 <= GoStrings.RuneCount(req.Username) <= 50
    && req.Email != "" && isEmail(req.Email)
    && req.Password != "" && 6 <= GoStrings.RuneCount(req.Password) <= 128
  }

  /** `LoginRequest`'s `binding` tags: both fields required. */
  predicate LoginBinds(req: LoginRequest) {
    req.UsernameOrEmail != "" && req.Password != ""
  }

  /** The outcome of `Register` and `Login`: an error reply, or the token and the user. */
  datatype AuthReply = AuthRefused(reply: Reply) | Authenticated(status: int, token: string, user: User)

  /** The cleaning step: the username is trimmed, the email lower-cased and then trimmed. */
  function Normalize(req: RegisterRequest): (r: RegisterRequest)
    ensures r.Username == GoStrings.TrimSpace(req.Username)
    ensures r.Email == GoStrings.TrimSpace(GoStrings.ToLower(req.Email))
    ensures r.Password == req.Password
  {
    req.(Username := GoStrings.TrimSpace(req.Username), Email := GoStrings.TrimSpace(GoStrings.ToLower(req.Email)))
  }

  /** Cleaning is idempotent: a cleaned request is left as it is. */
  lemma NormalizeIdempotent(req: RegisterRequest)
    ensures Normalize(Normalize(req)) == Normalize(req)
  {
    GoStrings.TrimSpaceIdempotent(req.Username);
    var l := GoStrings.ToLower(req.Email);
    var e := GoStrings.TrimSpace(l);
    GoStrings.ToLowerIdempotent(req.Email);
    GoStrings.TrimSpaceKeepsLower(l);
    GoStrings.LowerUnchanged(e);
    GoStrings.TrimSpaceIdempotent(l);
    assert GoStrings.TrimSpace(GoStrings.ToLower(e)) == e;
  }

  /**
   * `Register`. `register` is the user service's registration of the cleaned
   * username, email and password; `token` signs a JWT for the new user.
   */
  function Register(request: Option<RegisterRequest>, isEmail: string -> bool,
                    register: (string, string, string) -> Result<User>,
                    token: User -> Result<string>): (r: AuthReply)
    ensures request.None? || !RegisterBinds(request.value, isEmail) ==> r == AuthRefused(Reply(400, "INVALID_REQUEST"))
    ensures request.Some? && RegisterBinds(request.value, isEmail) && !UtilsAuth.ValidateEmail(Normalize(request.value).Email) ==>
      r == AuthRefused(Reply(400, "INVALID_EMAIL"))
    ensures (request.Some? && RegisterBinds(request.value, isEmail) && UtilsAuth.ValidateEmail(Normalize(request.value).Email)
      && !UtilsAuth.ValidateUsername(Normalize(request.value).Username)) ==>
      r == AuthRefused(Reply(400, "INVALID_USERNAME"))
    ensures r.Authenticated? ==> (request.Some? && RegisterBinds(request.value, isEmail) && r.status == 201
      && var n := Normalize(request.value);
         UtilsAuth.ValidateEmail(n.Email) && UtilsAuth.ValidateUsername(n.Username)
         && register(n.Username, n.Email, n.Password) == Ok(r.user) && token(r.user) == Ok(r.token))
    ensures (request.Some? && RegisterBinds(request.value, isEmail)
      && UtilsAuth.ValidateEmail(Normalize(request.value).Email) && UtilsAuth.ValidateUsername(Normalize(request.value).Username)) ==>
      var n := Normalize(request.value);
      var reg := register(n.Username, n.Email, n.Password);
      && (reg.Err? ==> r == AuthRefused(Reply(409, "REGISTRATION_FAILED")))
      && (reg.Ok? && token(reg.value).Err? ==> r == AuthRefused(Reply(500, "TOKEN_GENERATION_FAILED")))
      && (reg.Ok? && token(reg.value).Ok? ==> r == Authenticated(201, token(reg.value).value, reg.value))
  {
    if request.None? || !RegisterBinds(request.value, isEmail) then AuthRefused(Reply(400, "INVALID_REQUEST"))
    else
      var req := Normalize(request.value);
      if !UtilsAuth.ValidateEmail(req.Email) then AuthRefused(Reply(400, "INVALID_EMAIL"))
      else if !UtilsAuth.ValidateUsername(req.Username) then AuthRefused(Reply(400, "INVALID_USERNAME"))
      else match register(req.Username, req.Email, req.Password)
        case Err(_) => AuthRefused(Reply(409, "REGISTRATION_FAILED"))
        case Ok(user) =>
          match token(user)
          case Err(_) => AuthRefused(Reply(500, "TOKEN_GENERATION_FAILED"))
          case Ok(t) => Authenticated(201, t, user)
  }

  /**
   * The binding tags count characters but the handler's own check counts
   * bytes: a username of 17 to 50 three-byte characters passes binding and
   * is then refused as an invalid username.
   */
  lemma WideUsernameRefusedAfterBinding(k: nat, email: string, password: string, isEmail: string -> bool,
                                        register: (string, string, string) -> Result<User>,
                                        token: User -> Result<string>)
    requires 17 <= k <= 50
    requires email != "" && isEmail(email) && password != "" && 6 <= GoStrings.RuneCount(password) <= 128
    requires UtilsAuth.ValidateEmail(GoStrings.TrimSpace(GoStrings.ToLower(email)))
    ensures var req := RegisterRequest(UtilsAuth.Repeat(UtilsAuth.WideChar, k), email, password);
      RegisterBinds(req, isEmail)
      && Register(Some(req), isEmail, register, token) == AuthRefused(Reply(400, "INVALID_USERNAME"))
  {
    var u := UtilsAuth.Repeat(UtilsAuth.WideChar, k);
    var req := RegisterRequest(u, email, password);
    UtilsAuth.LengthsCountBytes(k);
    assert RegisterBinds(req, isEmail);
    UtilsAuth.WideTrimmed(k);
    var n := Normalize(req);
    assert n.Username == u && !UtilsAuth.ValidateUsername(n.Username);
    assert UtilsAuth.ValidateEmail(n.Email);
  }

  /**
   * Once the handler's own checks pass, the service's username and email
   * checks pass too: a service refusal can only be about the password, a
   * duplicate, hashing or the insert.
   */
  lemma HandlerChecksCoverService(req: RegisterRequest, existing: bool, hashed: Result<string>,
                                  newID: Uuid, insertError: Option<string>)
    requires UtilsAuth.ValidateEmail(Normalize(req).Email) && UtilsAuth.ValidateUsername(Normalize(req).Username)
    ensures var n := Normalize(req);
      var r := UserService.Register(n.Username, n.Email, n.Password, existing, hashed, newID, insertError);
      r != Err("用户名格式不正确") && r != Err("邮箱格式不正确")
  {
  }

  /**
   * `Login`: the identifier is trimmed; every refusal of the user service
   * becomes the same 401, whatever its reason.
   */
  function Login(request: Option<LoginRequest>, login: (string, string) -> Result<User>,
                 token: User -> Result<string>): (r: AuthReply)
    ensures request.None? || !LoginBinds(request.value) ==> r == AuthRefused(Reply(400, "INVALID_REQUEST"))
    ensures request.Some? && LoginBinds(request.value) && login(GoStrings.TrimSpace(request.value.UsernameOrEmail), request.value.Password).Err? ==>
      r == AuthRefused(Reply(401, "LOGIN_FAILED"))
    ensures r.Authenticated? ==> (request.Some? && LoginBinds(request.value) && r.status == 200
      && login(GoStrings.TrimSpace(request.value.UsernameOrEmail), request.value.Password) == Ok(r.user)
      && token(r.user) == Ok(r.token))
    ensures request.Some? && LoginBinds(request.value) ==>
      var signedIn := login(GoStrings.TrimSpace(request.value.UsernameOrEmail), request.value.Password);
      && (signedIn.Ok? && token(signedIn.value).Err? ==> r == AuthRefused(Reply(500, "TOKEN_GENERATION_FAILED")))
      && (signedIn.Ok? && token(signedIn.value).Ok? ==> r == Authenticated(200, token(signedIn.value).value, signedIn.value))
  {
    if request.None? || !LoginBinds(request.value) then AuthRefused(Reply(400, "INVALID_REQUEST"))
    else match login(GoStrings.TrimSpace(request.value.UsernameOrEmail), request.value.Password)
      case Err(_) => AuthRefused(Reply(401, "LOGIN_FAILED"))
      case Ok(user) =>
        match token(user)
        case Err(_) => AuthRefused(Reply(500, "TOKEN_GENERATION_FAILED"))
        case Ok(t) => Authenticated(200, t, user)
  }

  /** The profile reply: the user and, when the preference could be read, the preference. */
  datatype ProfileReply = ProfileRefused(reply: Reply) | Profile(user: User, preferences: Option<UserPreference>)

  /**
   * `GetProfile`. `userID` is the context's `user_id`, `userLookup` the
   * active-user query and `prefLookup`/`createError` the preference query
   * and the insert of a default row. A failed preference read does not fail
   * the request.
   */
  function GetProfile(userID: Option<Uuid>, userLookup: Query<User>,
                      prefLookup: Query<UserPreference>, createError: Option<string>): (r: ProfileReply)
    ensures userID.None? ==> r == ProfileRefused(Reply(401, "INVALID_AUTH"))
    ensures userID.Some? && !userLookup.Found? ==> r == ProfileRefused(Reply(404, "USER_NOT_FOUND"))
    ensures userID.Some? && userLookup.Found? ==> r.Profile? && r.user == userLookup.row
    ensures r.Profile? ==>
      (r.preferences.Some? <==> UserService.GetUserPreference(r.user.ID, prefLookup, createError).Ok?)
    ensures r.Profile? && r.preferences.Some? ==>
      r.preferences.value == UserService.GetUserPreference(r.user.ID, prefLookup, createError).value
  {
    if userID.None? then ProfileRefused(Reply(401, "INVALID_AUTH"))
    else match UserService.GetUserByID(userLookup)
      case Err(_) => ProfileRefused(Reply(404, "USER_NOT_FOUND"))
      case Ok(user) =>
        match UserService.GetUserPreference(user.ID, prefLookup, createError)
        case Ok(p) => Profile(user, Some(p))
        case Err(_) => Profile(user, None)
  }

  /** A user with no preference row yet is shown the default preference, once it is stored. */
  lemma FirstProfileShowsDefault(userID: Uuid, user: User)
    ensures GetProfile(Some(userID), Found(user), NotFound, None) ==
      Profile(user, Some(UserService.DefaultPreference(user.ID)))
  {
  }

  /**
   * The updates map of `UpdateProfile`, filled field by field: a non-empty
   * nickname is trimmed and HTML-escaped, a non-empty avatar trimmed.
   */
  method ProfileUpdates(req: UpdateProfileRequest) returns (updates: map<string, string>)
    ensures updates.Keys <= UserService.ProfileFields
    ensures "nickname" in updates <==> req.Nickname != ""
    ensures "avatar" in updates <==> req.Avatar != ""
    ensures "nickname" in updates ==> updates["nickname"] == UtilsCommon.SanitizeString(GoStrings.TrimSpace(req.Nickname))
    ensures "avatar" in updates ==> updates["avatar"] == GoStrings.TrimSpace(req.Avatar)
  {
    updates := map[];
    if req.Nickname != "" {
      updates := updates["nickname" := UtilsCommon.SanitizeString(GoStrings.TrimSpace(req.Nickname))];
    }
    if req.Avatar != "" {
      updates := updates["avatar" := GoStrings.TrimSpace(req.Avatar)];
    }
  }

  /** A nickname of blanks is not dropped: it is stored as the empty string. */
  lemma BlankNicknameClears()
    ensures UtilsCommon.SanitizeString(GoStrings.TrimSpace("  ")) == ""
  {
    GoStrings.TrimSpaceEmptyIff("  ");
  }

  datatype UpdateReply = UpdateRefused(reply: Reply) | Updated(data: map<string, string>)

  /**
   * `UpdateProfile`. `userID` is the context's `user_id`; `updateError` is
   * the outcome of the update the user service issues. `issued` is the map
   * sent to the database, `None` when the service was never called.
   */
  method UpdateProfile(userID: Option<Uuid>, request: Option<UpdateProfileRequest>, updateError: Option<string>)
    returns (reply: UpdateReply, issued: Option<map<string, string>>)
    ensures userID.None? ==> reply == UpdateRefused(Reply(401, "INVALID_AUTH")) && issued.None?
    ensures userID.Some? && request.None? ==> reply == UpdateRefused(Reply(400, "INVALID_REQUEST")) && issued.None?
    ensures userID.Some? && request.Some? && request.value.Nickname == "" && request.value.Avatar == "" ==>
      reply == UpdateRefused(Reply(400, "NO_UPDATE_DATA")) && issued.None?
    ensures userID.Some? && request.Some? && (request.value.Nickname != "" || request.value.Avatar != "") ==>
      issued.Some? && (updateError.Some? ==> reply == UpdateRefused(Reply(500, "UPDATE_FAILED")))
      && (updateError.None? ==> reply == Updated(issued.value))
    ensures issued.Some? ==> (request.Some? && issued.value != map[]
      && ("nickname" in issued.value <==> request.value.Nickname != "")
      && ("avatar" in issued.value <==> request.value.Avatar != ""))
    ensures issued.Some? && request.Some? && "nickname" in issued.value ==>
      issued.value["nickname"] == UtilsCommon.SanitizeString(GoStrings.TrimSpace(request.value.Nickname))
    ensures issued.Some? && request.Some? && "avatar" in issued.value ==>
      issued.value["avatar"] == GoStrings.TrimSpace(request.value.Avatar)
  {
    if userID.None? {
      return UpdateRefused(Reply(401, "INVALID_AUTH")), None;
    }
    if request.None? {
      return UpdateRefused(Reply(400, "INVALID_REQUEST")), None;
    }
    var updates := ProfileUpdates(request.value);
    if |updates| == 0 {
      return UpdateRefused(Reply(400, "NO_UPDATE_DATA")), None;
    }
    var sent, err := UserService.UpdateProfile(updates, updateError);
    assert UpdateMaps.Whitelisted(updates, UserService.ProfileFields) == updates;
    issued := sent;
    if err.Some? {
      return UpdateRefused(Reply(500, "UPDATE_FAILED")), issued;
    }
    reply := Updated(updates);
  }
}
