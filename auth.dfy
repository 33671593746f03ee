/** services/auth_svc.go: who may do what. A request is granted by the caller's roles
    (or, for an API token, by owning it); listings are filtered by the authorisation list
    the roles yield; logins are dispatched on the provider; webhook calls are checked
    against an HMAC of a message built from their headers and body. */
module Auth {
  import opened Base
  import opened Models
  import opened Kube
  import opened Configuration

  datatype Webhook = Webhook(id: string, owner: string, secret: string, task: string)

  /** The database rows and the foreign code the service reads. */
  datatype Accounts = Accounts(
    /** The owner of the API token with this id; None when there is no such row. */
    apiTokenOwner: string -> Result<Option<string>>,
    /** `UserService.GetUserRoles(subjectID, provider)`, in the order the join yields them. */
    userRoles: (string, string) -> Result<seq<Role>>,
    /** `UserService.GetByUsernameAndProvider`. */
    userByName: (string, string) -> Result<User>,
    /** `UserService.CreateUser` for an LDAP account. */
    createUser: User -> Option<Error>,
    /** `bcrypt.CompareHashAndPassword` of the user's stored hash with a password. */
    passwordMatches: (User, string) -> Option<Error>,
    /** `helpers.BindAndSearch` against the directory. */
    ldapBind: (string, string) -> Option<Error>,
    /** `helpers.CreateJWTToken(credentials, userID, ...)`. */
    createToken: (Credentials, string) -> Result<string>,
    /** The webhook row with this id; None when there is no such row. */
    webhook: string -> Result<Option<Webhook>>,
    /** base64 of HMAC-SHA256 of the data under the secret. */
    hmac: (string, string) -> string,
    /** The user row with this id. */
    userById: string -> Result<User>)

  // ---------------------------------------------------------------------
  // IsAutorised
  // ---------------------------------------------------------------------

  /** The condition of services/auth_svc.go:243-246 with Go's precedence: `&&` binds tighter
      than `||`, so a role on resource "*" grants every request. */
  predicate Grants(role: Role, auth: Authorization) {
    || role.resource == "*"
    || (&& role.resource == auth.resource
        && ((|role.resourcesIds| > 0 && role.resourcesIds[0] == "*") || auth.resourceId in role.resourcesIds)
        && (role.access == auth.access || role.access == "write"))
  }

  predicate RolesGrant(roles: seq<Role>, auth: Authorization) {
    exists i :: 0 <= i < |roles| && Grants(roles[i], auth)
  }

  /** A role's access level orders requests: "write" covers "read", a role on "*" covers all,
      and a read-only role on a named resource never grants writing. */
  lemma GrantsByAccess(role: Role, auth: Authorization)
    ensures role.resource == "*" ==> Grants(role, auth)
    ensures Grants(role, auth.(access := "write")) ==> Grants(role, auth.(access := "read"))
    ensures role.resource != "*" && role.access == "read" ==> !Grants(role, auth.(access := "write"))
  {
  }

  /** Whoever may write may read. */
  lemma WriteCoversRead(roles: seq<Role>, auth: Authorization)
    requires RolesGrant(roles, auth.(access := "write"))
    ensures RolesGrant(roles, auth.(access := "read"))
  {
    var i :| 0 <= i < |roles| && Grants(roles[i], auth.(access := "write"));
    GrantsByAccess(roles[i], auth);
  }

  /** The owner recorded in the API-token row gorm fills (the zero UUID when none). */
  function TokenOwner(row: Option<string>): string {
    row.GetOr(NilUuid)
  }

  /** The decision `IsAutorised` reaches (services/auth_svc.go:223-252). */
  function Decision(accounts: Accounts, auth: Authorization): (r: Result<bool>)
    ensures r == Ok(true) <==>
      || (auth.resource == "apiTokens" && accounts.apiTokenOwner(auth.resourceId).Ok? &&
          TokenOwner(accounts.apiTokenOwner(auth.resourceId).value) == auth.userId)
      || (!(auth.resource == "apiTokens" && accounts.apiTokenOwner(auth.resourceId).Err?) &&
          accounts.userRoles(auth.userId, auth.provider).Ok? &&
          RolesGrant(accounts.userRoles(auth.userId, auth.provider).value, auth))
    ensures auth.resource != "apiTokens" && accounts.userRoles(auth.userId, auth.provider).Err? ==>
      r == Err(accounts.userRoles(auth.userId, auth.provider).error)
    ensures auth.resource != "apiTokens" && accounts.userRoles(auth.userId, auth.provider).Ok? ==>
      r == Ok(RolesGrant(accounts.userRoles(auth.userId, auth.provider).value, auth))
    ensures r.Err? ==>
      || (auth.resource == "apiTokens" && accounts.apiTokenOwner(auth.resourceId) == Err(r.error))
      || accounts.userRoles(auth.userId, auth.provider) == Err(r.error)
  {
    if auth.resource == "apiTokens" && accounts.apiTokenOwner(auth.resourceId).Err? then
      Err(accounts.apiTokenOwner(auth.resourceId).error)
    else if auth.resource == "apiTokens" && TokenOwner(accounts.apiTokenOwner(auth.resourceId).value) == auth.userId then
      Ok(true)
    else
      match accounts.userRoles(auth.userId, auth.provider)
      case Err(e) => Err(e)
      case Ok(roles) => Ok(RolesGrant(roles, auth))
  }

  /** `IsAutorised`: the role loop stops at the first granting role. */
  method IsAutorised(accounts: Accounts, auth: Authorization) returns (r: Result<bool>)
    ensures r == Decision(accounts, auth)
  {
    if auth.resource == "apiTokens" {
      var row := accounts.apiTokenOwner(auth.resourceId);
      if row.Err? {
        return Err(row.error);
      }
      if TokenOwner(row.value) == auth.userId {
        return Ok(true);
      }
    }
    var roles := accounts.userRoles(auth.userId, auth.provider);
    if roles.Err? {
      return Err(roles.error);
    }
    for i := 0 to |roles.value|
      invariant forall j :: 0 <= j < i ==> !Grants(roles.value[j], auth)
    {
      var role := roles.value[i];
      if role.resource == "*" || (role.resource == auth.resource &&
         ((|role.resourcesIds| > 0 && role.resourcesIds[0] == "*") || auth.resourceId in role.resourcesIds) &&
         (role.access == auth.access || role.access == "write")) {
        return Ok(true);
      }
    }
    r := Ok(false);
  }

  // ---------------------------------------------------------------------
  // GetAuthorizationList
  // ---------------------------------------------------------------------

  /** `role.Resources_IDs[0]` on a role without ids. */
  const NoIds := Panic("index out of range [0] with length 0")

  predicate Matches(role: Role, resource: string) {
    role.resource == "*" || role.resource == resource
  }

  /** A matching role that ends the scan: its ids are empty (a panic) or start with "*". */
  predicate Stops(role: Role, resource: string) {
    Matches(role, resource) && (role.resourcesIds == [] || role.resourcesIds[0] == "*")
  }

  /** The scan of services/auth_svc.go:261-272 from `roles` on, with `acc` collected so far. */
  function Scan(roles: seq<Role>, resource: string, acc: seq<string>): Result<seq<string>>
    decreases |roles|
  {
    if roles == [] then Ok(acc)
    else if Matches(roles[0], resource) then
      if roles[0].resourcesIds == [] then Err(NoIds)
      else if roles[0].resourcesIds[0] == "*" then Ok(["*"])
      else Scan(roles[1..], resource, acc + roles[0].resourcesIds)
    else Scan(roles[1..], resource, acc)
  }

  /** The authorisation list of a user's roles for one resource kind. */
  function AuthorizationList(roles: seq<Role>, resource: string): Result<seq<string>> {
    Scan(roles, resource, [])
  }

  /** The ids of the matching roles, concatenated in role order. */
  function MatchingIds(roles: seq<Role>, resource: string): (ids: seq<string>)
    ensures forall x :: x in ids <==> exists i :: 0 <= i < |roles| && Matches(roles[i], resource) && x in roles[i].resourcesIds
  {
    if roles == [] then []
    else
      var rest := MatchingIds(roles[1..], resource);
      assert forall i :: 1 <= i < |roles| ==> roles[i] == roles[1..][i - 1];
      assert forall x :: x in rest ==> exists i :: 0 <= i < |roles| && Matches(roles[i], resource) && x in roles[i].resourcesIds by {
        forall x | x in rest
          ensures exists i :: 0 <= i < |roles| && Matches(roles[i], resource) && x in roles[i].resourcesIds
        {
          var k :| 0 <= k < |roles[1..]| && Matches(roles[1..][k], resource) && x in roles[1..][k].resourcesIds;
          assert roles[k + 1] == roles[1..][k];
        }
      }
      (if Matches(roles[0], resource) then roles[0].resourcesIds else []) + rest
  }

  /** Without a stopping role, the list is every matching role's ids, access ignored. */
  lemma {:induction false} ScanPlain(roles: seq<Role>, resource: string, acc: seq<string>)
    requires forall i :: 0 <= i < |roles| ==> !Stops(roles[i], resource)
    ensures Scan(roles, resource, acc) == Ok(acc + MatchingIds(roles, resource))
  {
    if roles != [] {
      assert forall i :: 1 <= i < |roles| ==> roles[i] == roles[1..][i - 1];
      if Matches(roles[0], resource) {
        ScanPlain(roles[1..], resource, acc + roles[0].resourcesIds);
        assert MatchingIds(roles, resource) == roles[0].resourcesIds + MatchingIds(roles[1..], resource);
        assert acc + roles[0].resourcesIds + MatchingIds(roles[1..], resource) == acc + MatchingIds(roles, resource);
      } else {
        assert MatchingIds(roles, resource) == [] + MatchingIds(roles[1..], resource);
        assert [] + MatchingIds(roles[1..], resource) == MatchingIds(roles[1..], resource);
        ScanPlain(roles[1..], resource, acc);
      }
    } else {
      assert acc + [] == acc;
    }
  }

  /** The first stopping role decides: a panic when its ids are empty, `["*"]` otherwise. */
  lemma {:induction false} ScanStops(roles: seq<Role>, resource: string, acc: seq<string>, k: nat)
    requires k < |roles| && Stops(roles[k], resource)
    requires forall j :: 0 <= j < k ==> !Stops(roles[j], resource)
    ensures Scan(roles, resource, acc) == if roles[k].resourcesIds == [] then Err(NoIds) else Ok(["*"])
  {
    if k > 0 {
      assert forall j :: 1 <= j < |roles| ==> roles[j] == roles[1..][j - 1];
      if Matches(roles[0], resource) {
        ScanStops(roles[1..], resource, acc + roles[0].resourcesIds, k - 1);
      } else {
        ScanStops(roles[1..], resource, acc, k - 1);
      }
    }
  }

  /** What `GetAuthorizationList` yields (services/auth_svc.go:254-273). */
  lemma AuthorizationListCases(roles: seq<Role>, resource: string)
    ensures (forall i :: 0 <= i < |roles| ==> !Stops(roles[i], resource)) ==>
      AuthorizationList(roles, resource) == Ok(MatchingIds(roles, resource))
    ensures forall k :: 0 <= k < |roles| && Stops(roles[k], resource) &&
                        (forall j :: 0 <= j < k ==> !Stops(roles[j], resource)) ==>
      AuthorizationList(roles, resource) == if roles[k].resourcesIds == [] then Err(NoIds) else Ok(["*"])
  {
    if forall i :: 0 <= i < |roles| ==> !Stops(roles[i], resource) {
      ScanPlain(roles, resource, []);
      assert [] + MatchingIds(roles, resource) == MatchingIds(roles, resource);
    }
    forall k | 0 <= k < |roles| && Stops(roles[k], resource) && (forall j :: 0 <= j < k ==> !Stops(roles[j], resource))
      ensures AuthorizationList(roles, resource) == if roles[k].resourcesIds == [] then Err(NoIds) else Ok(["*"])
    {
      ScanStops(roles, resource, [], k);
    }
  }

  /** `Scan` and what its accumulator and remaining roles grant. */
  lemma {:induction false} ScanGrants(roles: seq<Role>, resource: string, acc: seq<string>, l: seq<string>, auth: Authorization)
    requires forall i :: 0 <= i < |roles| ==> roles[i].access == "read" || roles[i].access == "write"
    requires auth.resource == resource && auth.access == "read"
    requires Scan(roles, resource, acc) == Ok(l)
    requires (|l| > 0 && l[0] == "*") || auth.resourceId in l
    ensures RolesGrant(roles, auth) || (|acc| > 0 && acc[0] == "*") || auth.resourceId in acc
  {
    if roles != [] {
      var role := roles[0];
      assert forall i :: 1 <= i < |roles| ==> roles[i] == roles[1..][i - 1];
      if Matches(role, resource) {
        if role.resourcesIds[0] == "*" {
          assert Grants(role, auth);
        } else {
          var acc' := acc + role.resourcesIds;
          ScanGrants(roles[1..], resource, acc', l, auth);
          if |acc| == 0 {
            assert acc' == role.resourcesIds;
          }
          if RolesGrant(roles[1..], auth) {
            var i :| 0 <= i < |roles[1..]| && Grants(roles[1..][i], auth);
            assert roles[i + 1] == roles[1..][i];
          } else if auth.resourceId in acc' && auth.resourceId !in acc {
            assert Grants(role, auth);
          }
        }
      } else {
        ScanGrants(roles[1..], resource, acc, l, auth);
        if RolesGrant(roles[1..], auth) {
          var i :| 0 <= i < |roles[1..]| && Grants(roles[1..][i], auth);
          assert roles[i + 1] == roles[1..][i];
        }
      }
    }
  }

  /** The listing filter agrees with the single-resource check: when every role's access is
      "read" or "write", a name the authorisation list admits (as the catalogue listings test
      it: first entry "*" or the name present) is one the roles grant reading. */
  lemma ListedImpliesReadable(roles: seq<Role>, resource: string, l: seq<string>, auth: Authorization)
    requires forall i :: 0 <= i < |roles| ==> roles[i].access == "read" || roles[i].access == "write"
    requires auth.resource == resource && auth.access == "read"
    requires AuthorizationList(roles, resource) == Ok(l)
    requires |l| > 0 && (l[0] == "*" || auth.resourceId in l)
    ensures RolesGrant(roles, auth)
  {
    ScanGrants(roles, resource, [], l, auth);
  }

  /** `GetAuthorizationList`: the scan returns early on a role whose first id is "*". */
  method GetAuthorizationList(accounts: Accounts, auth: Authorization) returns (r: Result<seq<string>>)
    ensures accounts.userRoles(auth.userId, auth.provider).Err? ==>
      r == Err(accounts.userRoles(auth.userId, auth.provider).error)
    ensures accounts.userRoles(auth.userId, auth.provider).Ok? ==>
      r == AuthorizationList(accounts.userRoles(auth.userId, auth.provider).value, auth.resource)
  {
    var roles := accounts.userRoles(auth.userId, auth.provider);
    if roles.Err? {
      return Err(roles.error);
    }
    var authList: seq<string> := [];
    for i := 0 to |roles.value|
      invariant Scan(roles.value, auth.resource, []) == Scan(roles.value[i..], auth.resource, authList)
    {
      var role := roles.value[i];
      assert roles.value[i..][1..] == roles.value[i + 1..];
      if role.resource == "*" || role.resource == auth.resource {
        if |role.resourcesIds| == 0 {
          return Err(NoIds);
        }
        if role.resourcesIds[0] == "*" {
          return Ok(["*"]);
        }
        authList := authList + role.resourcesIds;
      }
    }
    r := Ok(authList);
  }

  // ---------------------------------------------------------------------
  // ValidateWebhookSignature
  // ---------------------------------------------------------------------

  const InvalidSignature := Failed("invalid signature")
  const InvalidWebhook := Failed("invalid webhook")

  /** The signed message: id, timestamp and body joined by dots, the body's double quotes
      turned into single quotes. */
  function SignedData(msgID: string, timestamp: string, body: string): (data: string)
    ensures |data| == |msgID| + |timestamp| + 2 + |body|
    ensures data[..|msgID|] == msgID && data[|msgID|] == '.'
    ensures data[|msgID| + 1..|msgID| + 1 + |timestamp|] == timestamp && data[|msgID| + 1 + |timestamp|] == '.'
    ensures forall i :: |msgID| + |timestamp| + 2 <= i < |data| ==> data[i] != '"'
    ensures forall i :: 0 <= i < |body| && body[i] != '"' ==> data[|msgID| + |timestamp| + 2 + i] == body[i]
  {
    msgID + "." + timestamp + "." + ReplaceChar(body, '"', '\'')
  }

  /** A text without the separator splits into itself. */
  lemma {:induction false} SplitWhole(s: string, sep: char)
    requires sep !in s
    ensures Split(s, sep) == [s]
  {
    if s != [] {
      SplitWhole(s[1..], sep);
      assert s[0] != sep;
      assert [s[0]] + s[1..] == s;
    }
  }

  /** A versioned signature `v,sig` splits into its version and its signature. */
  lemma {:induction false} SplitVersioned(v: string, sig: string)
    requires ',' !in v && ',' !in sig
    ensures Split(v + "," + sig, ',') == [v, sig]
  {
    var s := v + "," + sig;
    if v == [] {
      assert s[0] == ',' && s[1..] == sig;
      SplitWhole(sig, ',');
    } else {
      assert s[0] == v[0] && v[0] != ',';
      assert s[1..] == v[1..] + "," + sig;
      SplitVersioned(v[1..], sig);
      assert [v[0]] + v[1..] == v;
    }
  }

  /** `ValidateWebhookSignature` (services/auth_svc.go:178-221): the webhook's owner and Task. */
  function ValidateWebhookSignature(accounts: Accounts, id: string, msgID: string, timestamp: string,
                                    signature: string, body: string): (r: Result<(User, string)>)
    ensures |Split(signature, ',')| != 2 ==> r == Err(InvalidSignature)
    ensures r.Ok? ==> |Split(signature, ',')| == 2 && accounts.webhook(id).Ok? && accounts.webhook(id).value.Some?
    ensures r.Ok? ==>
      var hook := accounts.webhook(id).value.value;
      && Split(signature, ',')[1] == accounts.hmac(hook.secret, SignedData(msgID, timestamp, body))
      && accounts.userById(hook.owner) == Ok(r.value.0) && r.value.1 == hook.task
    ensures |Split(signature, ',')| == 2 && accounts.webhook(id) == Ok(None) ==> r == Err(InvalidWebhook)
  {
    var split := Split(signature, ',');
    if |split| != 2 then Err(InvalidSignature)
    else
      var data := SignedData(msgID, timestamp, body);
      match accounts.webhook(id)
      case Err(e) => Err(e)
      case Ok(None) => Err(InvalidWebhook)
      case Ok(Some(hook)) =>
        if split[1] != accounts.hmac(hook.secret, data) then Err(InvalidSignature)
        else
          match accounts.userById(hook.owner)
          case Err(e) => Err(e)
          case Ok(user) => Ok((user, hook.task))
  }

  /** A well-formed `v1,<mac>` signature carrying the expected MAC is accepted. */
  lemma WebhookAcceptsExpected(accounts: Accounts, id: string, msgID: string, timestamp: string, body: string,
                               version: string, hook: Webhook, owner: User)
    requires accounts.webhook(id) == Ok(Some(hook)) && accounts.userById(hook.owner) == Ok(owner)
    requires ',' !in version && ',' !in accounts.hmac(hook.secret, SignedData(msgID, timestamp, body))
    ensures ValidateWebhookSignature(accounts, id, msgID, timestamp,
                                     version + "," + accounts.hmac(hook.secret, SignedData(msgID, timestamp, body)),
                                     body) == Ok((owner, hook.task))
  {
    SplitVersioned(version, accounts.hmac(hook.secret, SignedData(msgID, timestamp, body)));
  }

  // ---------------------------------------------------------------------
  // Login
  // ---------------------------------------------------------------------

  const DuplicateKey := "ERROR: duplicate key value violates unique constraint"
  const UnknownProvider := Wrapped("unknown provider", Failed("provider does not exist"))

  /** The user creation error that `Login` tolerates: the account already exists. */
  predicate IsDuplicateKey(e: Error) {
    e.Failed? && Contains(e.msg, DuplicateKey)
  }

  /** The user a login authenticates, or the error that stops it before a token is made
      (services/auth_svc.go:63-105). */
  function LoginUser(kube: Cluster, conf: Config, accounts: Accounts, credentials: Credentials): (r: Result<User>)
    reads kube
    ensures r.Ok? ==> accounts.userByName(credentials.username, credentials.provider) == Ok(r.value)
    ensures credentials.username == "root" ==> r != Err(UnknownProvider)
    ensures credentials.username == "root" && r.Ok? ==>
      kube.GetSecret(conf.rootSecret).Ok? && credentials.password == Get(kube.GetSecret(conf.rootSecret).value, "password")
    ensures credentials.username != "root" && credentials.provider == "local" && r.Ok? ==>
      accounts.passwordMatches(r.value, credentials.password).None?
    ensures credentials.username != "root" && credentials.provider == "active_directory" && r.Ok? ==>
      accounts.ldapBind(credentials.username, credentials.password).None?
    ensures credentials.username != "root" && credentials.provider != "local" && credentials.provider != "active_directory" ==>
      r == Err(UnknownProvider)
  {
    if credentials.username == "root" then
      match kube.GetSecret(conf.rootSecret)
      case Err(e) => Err(Wrapped("failed to get root password", Wrapped("failed to get secret for root user", e)))
      case Ok(secret) =>
        if credentials.password != Get(secret, "password") then
          Err(Wrapped("failed to authenticate", Failed("password is incorrect")))
        else
          match accounts.userByName(credentials.username, credentials.provider)
          case Err(e) => Err(Wrapped("user not found", e))
          case Ok(user) => Ok(user)
    else if credentials.provider == "local" then
      match accounts.userByName(credentials.username, credentials.provider)
      case Err(e) => Err(Wrapped("user not found", e))
      case Ok(user) =>
        match accounts.passwordMatches(user, credentials.password)
        case Some(e) => Err(Wrapped("incorrect password", e))
        case None => Ok(user)
    else if credentials.provider == "active_directory" then
      match accounts.ldapBind(credentials.username, credentials.password)
      case Some(e) => Err(Wrapped("failed to authenticate", e))
      case None =>
        var created := accounts.createUser(User("", credentials.username, credentials.provider, [], false));
        if created.Some? && !IsDuplicateKey(created.value) then
          Err(Wrapped("failed to create ldap user into local user db", created.value))
        else
          match accounts.userByName(credentials.username, credentials.provider)
          case Err(e) => Err(Wrapped("failed to get user credentials", e))
          case Ok(user) => Ok(user)
    else Err(UnknownProvider)
  }

  /** `Login` (services/auth_svc.go:59-114): a token for the authenticated user and its lifetime. */
  function Login(kube: Cluster, conf: Config, accounts: Accounts, credentials: Credentials): (r: Result<(string, int)>)
    reads kube
    ensures r.Ok? <==> LoginUser(kube, conf, accounts, credentials).Ok? &&
                       accounts.createToken(credentials, LoginUser(kube, conf, accounts, credentials).value.id).Ok?
    ensures r.Ok? ==>
      r.value == (accounts.createToken(credentials, LoginUser(kube, conf, accounts, credentials).value.id).value,
                  conf.jwt.expirySeconds)
    ensures LoginUser(kube, conf, accounts, credentials).Err? ==> r == Err(LoginUser(kube, conf, accounts, credentials).error)
  {
    match LoginUser(kube, conf, accounts, credentials)
    case Err(e) => Err(e)
    case Ok(user) =>
      match accounts.createToken(credentials, user.id)
      case Err(e) => Err(Wrapped("failed to create token", e))
      case Ok(token) => Ok((token, conf.jwt.expirySeconds))
  }
}
