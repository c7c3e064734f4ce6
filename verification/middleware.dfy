/**
 * `middleware/auth.go`: the JWT authentication step in front of the
 * protected routes, and the read-back of the user it records. Token
 * parsing and signature checking are a parameter.
 */
module Middleware {
  import opened Base
  import opened Models
  import GoStrings

  /** The claims a valid token carries. */
  datatype Claims = Claims(UserID: Uuid, Username: string, Email: string)

  const BearerPrefix := "Bearer "

  /**
   * The token the middleware uses: the `Authorization` header without its
   * `Bearer ` prefix, unless that leaves nothing, in which case the
   * `token` query parameter. An absent header or parameter reads as "".
   */
  function SelectToken(header: string, query: string): (token: string)
    ensures GoStrings.HasPrefix(header, BearerPrefix) && |header| > |BearerPrefix| ==>
      token == header[|BearerPrefix|..]
    ensures !(GoStrings.HasPrefix(header, BearerPrefix) && |header| > |BearerPrefix|) ==> token == query
    ensures token == "" <==> query == "" && !(GoStrings.HasPrefix(header, BearerPrefix) && |header| > |BearerPrefix|)
  {
    var fromHeader :=
      if header != "" && GoStrings.HasPrefix(header, BearerPrefix) then GoStrings.TrimPrefix(header, BearerPrefix)
      else "";
    if fromHeader == "" then query else fromHeader
  }

  /** What `GetUserFromContext` yields. A missing `username` or `email` fails a type assertion, a panic. */
  datatype ContextUser = Unauthenticated(error: string) | Authenticated(user: User) | Panicked

  /** `GetUserFromContext` over the request's key store. */
  function UserFromContext(keys: map<string, string>): (r: ContextUser)
    ensures r.Unauthenticated? <==> "user_id" !in keys
    ensures r.Panicked? <==> "user_id" in keys && ("username" !in keys || "email" !in keys)
    ensures r.Authenticated? ==> (r.user.ID == keys["user_id"] && r.user.Username == keys["username"]
      && r.user.Email == keys["email"] && !r.user.IsActive && r.user.Password == "")
  {
    if "user_id" !in keys then Unauthenticated("token is not valid yet")
    else if "username" !in keys || "email" !in keys then Panicked
    else Authenticated(User(keys["user_id"], keys["username"], keys["email"], "", "", "", false))
  }

  /** The three keys the middleware stores for an accepted token; reading them back gives the claims. */
  function StoreClaims(keys: map<string, string>, claims: Claims): (r: map<string, string>)
    ensures r.Keys == keys.Keys + {"user_id", "username", "email"}
    ensures forall k :: k in keys && k !in {"user_id", "username", "email"} ==> r[k] == keys[k]
    ensures UserFromContext(r) == Authenticated(User(claims.UserID, claims.Username, claims.Email, "", "", "", false))
  {
    keys["user_id" := claims.UserID]["username" := claims.Username]["email" := claims.Email]
  }

  /** The per-request context the middleware writes to. */
  class Context {
    var keys: map<string, string>
    /** The status of the written response, 0 while none is written. */
    var status: int
    var code: string
    var aborted: bool
    var proceeded: bool

    constructor ()
      ensures keys == map[] && status == 0 && code == "" && !aborted && !proceeded
    {
      keys := map[];
      status := 0;
      code := "";
      aborted := false;
      proceeded := false;
    }

    /** Writes the 401 refusal with `code` and stops the chain. */
    method Refuse(refusal: string)
      modifies this
      ensures status == 401 && code == refusal && aborted && proceeded == old(proceeded) && keys == old(keys)
    {
      status := 401;
      code := refusal;
      aborted := true;
    }

    /**
     * `JWTAuthMiddleware`: refuses a request with no token or with a token
     * `parse` rejects; otherwise records the claims and lets the chain go on.
     */
    method JWTAuth(header: string, query: string, parse: string -> Result<Claims>)
      modifies this
      ensures SelectToken(header, query) == "" ==>
        status == 401 && code == "MISSING_TOKEN" && aborted && proceeded == old(proceeded) && keys == old(keys)
      ensures SelectToken(header, query) != "" && parse(SelectToken(header, query)).Err? ==>
        status == 401 && code == "INVALID_TOKEN" && aborted && proceeded == old(proceeded) && keys == old(keys)
      ensures SelectToken(header, query) != "" && parse(SelectToken(header, query)).Ok? ==>
        keys == StoreClaims(old(keys), parse(SelectToken(header, query)).value) && proceeded
        && status == old(status) && code == old(code) && aborted == old(aborted)
    {
      var token := SelectToken(header, query);
      if token == "" {
        Refuse("MISSING_TOKEN");
        return;
      }
      match parse(token)
      case Err(_) =>
        Refuse("INVALID_TOKEN");
      case Ok(claims) =>
        keys := StoreClaims(keys, claims);
        proceeded := true;
    }
  }

  /** A request that passed the middleware yields the token's user. */
  lemma AcceptedRequestHasUser(keys: map<string, string>, header: string, query: string, parse: string -> Result<Claims>)
    requires SelectToken(header, query) != "" && parse(SelectToken(header, query)).Ok?
    ensures var c := parse(SelectToken(header, query)).value;
      UserFromContext(StoreClaims(keys, c)).Authenticated? && UserFromContext(StoreClaims(keys, c)).user.ID == c.UserID
  {
  }
}
