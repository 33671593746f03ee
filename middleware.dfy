/** middlewares/auth.go: the gin middlewares in front of every route. Authentication picks a
    credential scheme from the request and asks the matching validator who the caller is;
    authorisation derives the resource id from the path and turns the service's decision into
    "continue", 403 or 500; the list middleware stores the caller's authorisation list. */
module Middleware {
  import opened Base
  import opened Models
  import PodSpecs
  import Auth

  datatype Request = Request(url: string, id: string, headers: Record, cookie: Option<string>, body: string)

  datatype Claims = Claims(username: string, userId: string, provider: string)

  /** The validators the middleware calls; their bodies are foreign (HMAC, database, JWT). */
  datatype Validators = Validators(
    /** `ValidateWebhookSignatureInfraHub(id, msgID, timestamp, signature, body)`. */
    infraHub: (string, string, string, string, string) -> Result<(User, string)>,
    /** `ValidateWebhookSignatureCommon(id, signature, body)`. */
    common: (string, string, string) -> Result<(User, string)>,
    /** `ValidateAPIToken(key)`. */
    apiToken: string -> Result<User>,
    /** `helpers.ValidateJWTToken(token, conf)`. */
    jwt: string -> Result<Claims>)

  /** What a middleware does with the request: hand it on with a value, or abort with a status. */
  datatype Outcome<T> = Proceed(value: T) | Abort(status: int, reason: Error)

  /** The caller as the context records it; `taskId` only for webhook calls. */
  datatype Identity = Identity(userId: string, username: string, provider: string, taskId: Option<string>)

  datatype Scheme =
    | InfraHub(msgID: string, timestamp: string, signature: string)
    | CommonHook(signature: string)
    | ApiToken(token: string)
    | Jwt(token: string)

  const WebhookPath := "/api/v1/webhooks/run"
  const BearerPrefix := "Bearer "
  const WebhookFailed := Failed("webhook authentication failed.")
  const PleaseAuthenticate := Failed("please authenticate.")
  const InvalidToken := Failed("invalid token.")
  const InternalError := Failed("internal server error.")
  const Forbidden := Failed("unauthorized - user cannot access resource")

  /** `strings.Split(header, "Bearer ")[1]` when there is such an element, else "": the text
      between the first "Bearer " and the next one (or the end). */
  function BearerToken(header: string): (token: string)
    ensures !Contains(header, BearerPrefix) ==> token == ""
  {
    match IndexOf(header, BearerPrefix)
    case None => ""
    case Some(i) =>
      var rest := header[i + |BearerPrefix|..];
      match IndexOf(rest, BearerPrefix)
      case None => rest
      case Some(j) => rest[..j]
  }

  /** Text cut just before the first occurrence of a pattern does not hold the pattern. */
  lemma NoneBeforeFirst(s: string, pat: string, j: nat)
    requires pat != [] && IndexOf(s, pat) == Some(j)
    ensures !Contains(s[..j], pat)
  {
    forall k: nat | OccursAt(s[..j], pat, k) ensures false {
      assert k < j;
      assert s[..j][k..k + |pat|] == s[k..k + |pat|];
      assert OccursAt(s, pat, k);
    }
  }

  /** An occurrence in a suffix is an occurrence in the whole text. */
  lemma OccursInSuffix(s: string, pat: string, start: nat, j: nat)
    requires start <= |s| && OccursAt(s[start..], pat, j)
    ensures OccursAt(s, pat, start + j)
  {
    assert s[start + j..start + j + |pat|] == s[start..][j..j + |pat|];
  }

  /** For every header holding "Bearer ", the token is the element `strings.Split` puts second:
      it starts right after the first "Bearer ", holds no "Bearer " itself, and ends where the
      next "Bearer " starts or at the end of the header. */
  lemma BearerTokenBetween(header: string, i: nat)
    requires IndexOf(header, BearerPrefix) == Some(i)
    ensures var token := BearerToken(header);
      var start := i + |BearerPrefix|;
      && start + |token| <= |header|
      && header[start..start + |token|] == token
      && !Contains(token, BearerPrefix)
      && (start + |token| == |header| || OccursAt(header, BearerPrefix, start + |token|))
  {
    var start := i + |BearerPrefix|;
    var rest := header[start..];
    match IndexOf(rest, BearerPrefix)
    case None =>
      assert BearerToken(header) == rest;
    case Some(j) =>
      assert BearerToken(header) == rest[..j];
      NoneBeforeFirst(rest, BearerPrefix, j);
      OccursInSuffix(header, BearerPrefix, start, j);
  }

  /** An `Authorization: Bearer <token>` header yields the token. */
  lemma BearerOfHeader(token: string)
    requires !Contains(token, BearerPrefix)
    ensures BearerToken(BearerPrefix + token) == token
  {
    var header := BearerPrefix + token;
    assert OccursAt(header, BearerPrefix, 0);
    assert header[|BearerPrefix|..] == token;
  }

  predicate IsWebhookCall(req: Request) {
    Contains(req.url, WebhookPath)
  }

  /** The credential scheme of `AuthenticationMiddleware` (middlewares/auth.go:30-99). */
  function SchemeOf(req: Request): (r: Outcome<Scheme>)
    ensures r.Abort? ==> r.status == 401
    ensures IsWebhookCall(req) && Get(req.headers, "X-Hook-Signature") == "" && Get(req.headers, "webhook-signature") == "" ==>
      r == Abort(401, WebhookFailed)
    ensures IsWebhookCall(req) ==>
      (r.Proceed? && r.value.InfraHub? <==>
        Get(req.headers, "webhook-id") != "" && Get(req.headers, "webhook-timestamp") != "" &&
        Get(req.headers, "webhook-signature") != "")
    ensures IsWebhookCall(req) ==>
      (r.Proceed? && r.value.CommonHook? <==>
        !(Get(req.headers, "webhook-id") != "" && Get(req.headers, "webhook-timestamp") != "" &&
          Get(req.headers, "webhook-signature") != "") &&
        Get(req.headers, "X-Hook-Signature") != "")
    ensures IsWebhookCall(req) && r.Proceed? ==> r.value.InfraHub? || r.value.CommonHook?
    ensures !IsWebhookCall(req) && Get(req.headers, "Token") != "" ==> r == Proceed(ApiToken(Get(req.headers, "Token")))
    ensures !IsWebhookCall(req) && Get(req.headers, "Token") == "" ==>
      var bearer := BearerToken(Get(req.headers, "Authorization"));
      && (bearer != "" ==> r == Proceed(Jwt(bearer)))
      && (bearer == "" && req.cookie.Some? ==> r == Proceed(Jwt(req.cookie.value)))
      && (bearer == "" && req.cookie.None? ==> r == Abort(401, PleaseAuthenticate))
  {
    var timestamp := Get(req.headers, "webhook-timestamp");
    var msgID := Get(req.headers, "webhook-id");
    var webhookSig := Get(req.headers, "webhook-signature");
    var signature := Get(req.headers, "X-Hook-Signature");
    var token := Get(req.headers, "Token");
    if IsWebhookCall(req) then
      if signature == "" && webhookSig == "" then Abort(401, WebhookFailed)
      else if msgID != "" && timestamp != "" && webhookSig != "" then Proceed(InfraHub(msgID, timestamp, webhookSig))
      else if signature != "" then Proceed(CommonHook(signature))
      else Abort(401, WebhookFailed)
    else if token != "" then Proceed(ApiToken(token))
    else
      var bearer := BearerToken(Get(req.headers, "Authorization"));
      if bearer != "" then Proceed(Jwt(bearer))
      else match req.cookie
        case None => Abort(401, PleaseAuthenticate)
        case Some(cookie) => Proceed(Jwt(cookie))
  }

  /** `AuthenticationMiddleware` (middlewares/auth.go:19-113): the caller the chosen validator
      vouches for, or 401. */
  function Authenticate(req: Request, validators: Validators): (r: Outcome<Identity>)
    ensures r.Abort? ==> r.status == 401
    ensures SchemeOf(req).Abort? ==> r == Abort(SchemeOf(req).status, SchemeOf(req).reason)
    ensures r.Proceed? ==> SchemeOf(req).Proceed?
    ensures r.Proceed? ==> (r.value.taskId.Some? <==> IsWebhookCall(req))
    ensures r.Proceed? && SchemeOf(req).value.ApiToken? ==>
      var user := validators.apiToken(SchemeOf(req).value.token);
      user.Ok? && r.value == Identity(user.value.id, user.value.username, user.value.provider, None)
    ensures r.Proceed? && SchemeOf(req).value.Jwt? ==>
      var claims := validators.jwt(SchemeOf(req).value.token);
      claims.Ok? && r.value == Identity(claims.value.userId, claims.value.username, claims.value.provider, None)
    ensures SchemeOf(req).Proceed? && SchemeOf(req).value.ApiToken? && validators.apiToken(SchemeOf(req).value.token).Err? ==>
      r == Abort(401, validators.apiToken(SchemeOf(req).value.token).error)
    ensures SchemeOf(req).Proceed? && SchemeOf(req).value.Jwt? && validators.jwt(SchemeOf(req).value.token).Err? ==>
      r == Abort(401, InvalidToken)
  {
    match SchemeOf(req)
    case Abort(status, reason) => Abort(status, reason)
    case Proceed(InfraHub(msgID, timestamp, signature)) =>
      (match validators.infraHub(req.id, msgID, timestamp, signature, req.body)
       case Err(_) => Abort(401, WebhookFailed)
       case Ok((owner, task)) => Proceed(Identity(owner.id, owner.username, owner.provider, Some(task))))
    case Proceed(CommonHook(signature)) =>
      (match validators.common(req.id, signature, req.body)
       case Err(_) => Abort(401, WebhookFailed)
       case Ok((owner, task)) => Proceed(Identity(owner.id, owner.username, owner.provider, Some(task))))
    case Proceed(ApiToken(token)) =>
      (match validators.apiToken(token)
       case Err(e) => Abort(401, e)
       case Ok(owner) => Proceed(Identity(owner.id, owner.username, owner.provider, None)))
    case Proceed(Jwt(token)) =>
      (match validators.jwt(token)
       case Err(_) => Abort(401, InvalidToken)
       case Ok(claims) => Proceed(Identity(claims.userId, claims.username, claims.provider, None)))
  }

  // ---------------------------------------------------------------------
  // AuthorizationMiddleware
  // ---------------------------------------------------------------------

  /** `resourceID[:len(resourceID)-6]` on an id shorter than 6 characters. */
  const ShortId := Panic("slice bounds out of range")

  /** Job reads name a run, whose id is its Task's name, a dash and five generated characters:
      they are authorised against the Task. */
  predicate TrimsJobSuffix(resource: string, access: string, url: string) {
    resource == "jobs" && access == "read" && !HasSuffix(url, "/schema")
  }

  /** The resource id checked (middlewares/auth.go:121-130): the path id, "*" when there is none,
      and for job reads the id without its last six characters. */
  function ResourceId(resource: string, access: string, url: string, id: string): (r: Result<string>)
    ensures !TrimsJobSuffix(resource, access, url) ==> r == Ok(if id == "" then "*" else id)
    ensures TrimsJobSuffix(resource, access, url) ==> (r.Ok? <==> |id| >= 6)
    ensures TrimsJobSuffix(resource, access, url) && r.Ok? ==> id == r.value + id[|id| - 6..]
    ensures r.Err? ==> r.error == ShortId
  {
    var resourceId := if id == "" then "*" else id;
    if TrimsJobSuffix(resource, access, url) then
      if |resourceId| < 6 then Err(ShortId) else Ok(resourceId[..|resourceId| - 6])
    else Ok(resourceId)
  }

  /** The id of a run of `JobObject` maps back to the Task it runs. */
  lemma JobIdNamesTask(job: PodSpecs.BatchJob, name: string, suffix: string, url: string)
    requires job.generateName == name + "-" && |suffix| == 5 && !HasSuffix(url, "/schema")
    ensures ResourceId("jobs", "read", url, job.generateName + suffix) == Ok(name)
  {
    var id := job.generateName + suffix;
    assert id[..|id| - 6] == name;
  }

  /** The answer to the service's decision (middlewares/auth.go:141-152). */
  function Verdict(decision: Result<bool>): (r: Outcome<()>)
    ensures r.Proceed? <==> decision == Ok(true)
    ensures decision.Err? ==> r == Abort(500, InternalError)
    ensures decision == Ok(false) ==> r == Abort(403, Forbidden)
  {
    match decision
    case Err(_) => Abort(500, InternalError)
    case Ok(true) => Proceed(())
    case Ok(false) => Abort(403, Forbidden)
  }

  /** `AuthorizationMiddleware` (middlewares/auth.go:115-154). A panic in the id derivation is
      answered 500 by gin's recovery handler. */
  method AuthorizationMiddleware(accounts: Auth.Accounts, resource: string, access: string, userId: string,
                                 provider: string, url: string, id: string) returns (r: Outcome<()>)
    ensures ResourceId(resource, access, url, id).Err? ==> r == Abort(500, ResourceId(resource, access, url, id).error)
    ensures ResourceId(resource, access, url, id).Ok? ==>
      r == Verdict(Auth.Decision(accounts, Authorization(userId, provider, resource, ResourceId(resource, access, url, id).value, access)))
  {
    var resourceId := ResourceId(resource, access, url, id);
    if resourceId.Err? {
      return Abort(500, resourceId.error);
    }
    var isAuthorised := Auth.IsAutorised(accounts, Authorization(userId, provider, resource, resourceId.value, access));
    r := Verdict(isAuthorised);
  }

  /** A caller holding a role on resource "*" passes every authorisation check that reaches the
      role lookup, except on API tokens, whose lookup comes first. */
  lemma WildcardRolePasses(accounts: Auth.Accounts, auth: Authorization, roles: seq<Role>, k: nat)
    requires auth.resource != "apiTokens"
    requires accounts.userRoles(auth.userId, auth.provider) == Ok(roles)
    requires k < |roles| && roles[k].resource == "*"
    ensures Verdict(Auth.Decision(accounts, auth)) == Proceed(())
  {
    Auth.GrantsByAccess(roles[k], auth);
  }

  /** `SetAuthorizationListMiddleware` (middlewares/auth.go:156-176): the list stored in the
      context, or 500 (also for the panic on a role without ids, which gin's recovery handler
      answers 500). */
  method SetAuthorizationListMiddleware(accounts: Auth.Accounts, resource: string, userId: string, provider: string)
    returns (r: Outcome<seq<string>>)
    ensures accounts.userRoles(userId, provider).Err? ==> r == Abort(500, InternalError)
    ensures accounts.userRoles(userId, provider).Ok? ==>
      var list := Auth.AuthorizationList(accounts.userRoles(userId, provider).value, resource);
      && (list.Err? ==> r == Abort(500, InternalError))
      && (list.Ok? ==> r == Proceed(list.value))
  {
    var authList := Auth.GetAuthorizationList(accounts, Authorization(userId, provider, resource, "", ""));
    if authList.Err? {
      return Abort(500, InternalError);
    }
    r := Proceed(authList.value);
  }
}
