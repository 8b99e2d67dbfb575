/** Role-based authorization (pkg/auth): the JWT middleware's decision
    sequence, the `{id}` path matcher, the resource-ownership middleware,
    role checks, and the context helpers of the auth service.

    Token parsing and signature checking are an oracle: a function from the
    bearer token to the claims it carries, or None when parsing fails or the
    token is not valid. The request context is an optional set of claims. */
module Auth {
  import opened Text
  import opened Http
  import opened Wrappers

  datatype Claims = Claims(userId: string, roles: seq<string>)

  /** A role and, per path pattern, the methods it allows. */
  datatype Role = Role(name: string, permissions: map<string, seq<string>>)

  /** The configuration the middleware reads (the JWT secret belongs to the
      token oracle). */
  datatype AuthConfig = AuthConfig(allowedRoles: map<string, Role>, publicPaths: seq<string>)

  datatype User = User(id: string, roles: seq<string>)

  /** The sentinel errors of the package. */
  datatype AuthError =
    | NoAuthHeader | InvalidAuthType | InvalidToken | InsufficientRole
    | InvalidSignature | ExpiredToken | InvalidIssuer | InvalidCredentials
    | UserNotFound | UnauthorizedRole | ResourceNotOwned

  function Message(e: AuthError): string {
    match e
    case NoAuthHeader => "no authorization header"
    case InvalidAuthType => "invalid authorization type"
    case InvalidToken => "invalid token"
    case InsufficientRole => "insufficient role"
    case InvalidSignature => "invalid token signature"
    case ExpiredToken => "token has expired"
    case InvalidIssuer => "invalid token issuer"
    case InvalidCredentials => "invalid credentials"
    case UserNotFound => "user not found in context"
    case UnauthorizedRole => "user role not authorized for this action"
    case ResourceNotOwned => "user does not own this resource"
  }

  /** What a middleware does with a request: hand it on with the given
      context, or answer with an error status and message (http.Error). */
  datatype Outcome = Next(ctx: Option<Claims>) | Fail(status: int, message: string)

  // ---------------------------------------------------------------------
  // matchPath: `{id}` stands for one run of [a-zA-Z0-9-]+, every other
  // character stands for itself, and the whole path must match.
  // ---------------------------------------------------------------------

  const Placeholder := "{id}"

  predicate IdChar(c: char) {
    ('a' <= c <= 'z') || ('A' <= c <= 'Z') || ('0' <= c <= '9') || c == '-'
  }

  predicate StartsWithPlaceholder(pattern: string) {
    |pattern| >= 4 && pattern[..4] == Placeholder
  }

  predicate MatchPath(pattern: string, path: string)
    decreases |pattern| + |path|
  {
    if pattern == [] then path == []
    else if StartsWithPlaceholder(pattern) then
      path != [] && IdChar(path[0])
      && (MatchPath(pattern[4..], path[1..]) || MatchPath(pattern, path[1..]))
    else
      path != [] && path[0] == pattern[0] && MatchPath(pattern[1..], path[1..])
  }

  /** A pattern without a placeholder matches exactly its own text; so
      "/api/v1/tasks" does not match "/api/v1/tasks/". */
  lemma {:induction false} LiteralPatternMatchesOnlyItself(pattern: string, path: string)
    requires '{' !in pattern
    ensures MatchPath(pattern, path) <==> path == pattern
  {
    if pattern != [] && path != [] {
      assert pattern[0] == '{' ==> '{' in pattern;
      LiteralPatternMatchesOnlyItself(pattern[1..], path[1..]);
      assert pattern == [pattern[0]] + pattern[1..] && path == [path[0]] + path[1..];
    }
  }

  /** A pattern whose first part has no placeholder only matches paths
      that start with that part. */
  lemma {:induction false} LiteralHeadForced(head: string, rest: string, path: string)
    requires '{' !in head
    requires MatchPath(head + rest, path)
    ensures |head| <= |path| && path[..|head|] == head
  {
    if head != [] {
      assert (head + rest)[0] == head[0] && (head + rest)[1..] == head[1..] + rest;
      var hr := head + rest;
      assert head[0] in head;
      if |hr| >= 4 { assert hr[..4][0] == hr[0]; }
      LiteralHeadForced(head[1..], rest, path[1..]);
    }
  }

  predicate AllIdChars(s: string) {
    forall i :: 0 <= i < |s| ==> IdChar(s[i])
  }

  /** A trailing `{id}` matches exactly the non-empty runs of id
      characters, so never a run holding '/'. */
  lemma {:induction false} PlaceholderMatchesIdRuns(s: string)
    ensures MatchPath(Placeholder, s) <==> s != [] && AllIdChars(s)
  {
    assert Placeholder[4..] == [];
    if s != [] {
      PlaceholderMatchesIdRuns(s[1..]);
      assert AllIdChars(s) <==> IdChar(s[0]) && AllIdChars(s[1..]) by {
        if IdChar(s[0]) && AllIdChars(s[1..]) {
          forall i | 0 <= i < |s| ensures IdChar(s[i]) { if i > 0 { assert s[i] == s[1..][i - 1]; } }
        }
      }
    }
  }

  /** A literal prefix followed by `{id}` matches the prefix followed by a
      non-empty run of id characters, and nothing else. */
  lemma {:induction false} PrefixThenPlaceholder(prefix: string, path: string)
    requires '{' !in prefix
    ensures MatchPath(prefix + Placeholder, path) <==>
      |prefix| < |path| && path[..|prefix|] == prefix && AllIdChars(path[|prefix|..])
  {
    if prefix == [] {
      assert prefix + Placeholder == Placeholder;
      PlaceholderMatchesIdRuns(path);
    } else {
      var p := prefix + Placeholder;
      assert p[0] == prefix[0] && p[1..] == prefix[1..] + Placeholder;
      assert prefix[0] in prefix;
      if |p| >= 4 { assert p[..4][0] == p[0]; }
      if path != [] {
        PrefixThenPlaceholder(prefix[1..], path[1..]);
        if |prefix| < |path| {
          assert path[1..][..|prefix| - 1] == path[1..|prefix|];
          assert path[1..][|prefix| - 1..] == path[|prefix|..];
          assert path[..|prefix|] == [path[0]] + path[1..|prefix|];
          assert prefix == [prefix[0]] + prefix[1..];
        }
      }
    }
  }

  // ---------------------------------------------------------------------
  // The permission check of AuthMiddleware
  // ---------------------------------------------------------------------

  /** Some pattern of `role` matches `path` and lists `verb`. */
  predicate RoleAllows(role: Role, path: string, verb: string) {
    exists p :: p in role.permissions && MatchPath(p, path) && verb in role.permissions[p]
  }

  /** The claimed role `name` is configured and allows the request. */
  predicate RoleGrants(config: AuthConfig, name: string, path: string, verb: string) {
    name in config.allowedRoles && RoleAllows(config.allowedRoles[name], path, verb)
  }

  /** Some claimed role grants the request. */
  predicate Permitted(config: AuthConfig, roles: seq<string>, path: string, verb: string) {
    exists i :: 0 <= i < |roles| && RoleGrants(config, roles[i], path, verb)
  }

  /** The nested search of AuthMiddleware: claimed roles in order, the
      role's patterns in map order (any order), the pattern's methods in
      order, stopping at the first grant. The answer is Permitted, whatever
      order the patterns are visited in. */
  method HasPermission(config: AuthConfig, roles: seq<string>, path: string, verb: string)
    returns (hasPermission: bool)
    ensures hasPermission <==> Permitted(config, roles, path, verb)
  {
    hasPermission := false;
    var i := 0;
    while i < |roles|
      invariant 0 <= i <= |roles|
      invariant !hasPermission ==> forall j :: 0 <= j < i ==> !RoleGrants(config, roles[j], path, verb)
      invariant hasPermission ==> Permitted(config, roles, path, verb)
    {
      var userRole := roles[i];
      if userRole in config.allowedRoles {
        var role := config.allowedRoles[userRole];
        var patterns := role.permissions.Keys;
        while patterns != {}
          invariant patterns <= role.permissions.Keys
          invariant !hasPermission ==> forall p :: p in role.permissions && p !in patterns ==>
            !(MatchPath(p, path) && verb in role.permissions[p])
          invariant hasPermission ==> RoleAllows(role, path, verb)
          decreases patterns
        {
          var pattern :| pattern in patterns;
          if MatchPath(pattern, path) {
            var methods := role.permissions[pattern];
            var k := 0;
            while k < |methods|
              invariant 0 <= k <= |methods|
              invariant !hasPermission ==> verb !in methods[..k]
              invariant hasPermission ==> verb in methods
            {
              if methods[k] == verb {
                hasPermission := true;
                break;
              }
              assert methods[..k + 1] == methods[..k] + [methods[k]];
              k := k + 1;
            }
            if hasPermission {
              break;
            }
            assert methods[..|methods|] == methods;
          }
          patterns := patterns - {pattern};
        }
      }
      if hasPermission {
        assert RoleGrants(config, roles[i], path, verb);
        break;
      }
      i := i + 1;
    }
  }

  // ---------------------------------------------------------------------
  // AuthMiddleware
  // ---------------------------------------------------------------------

  const AuthorizationHeader := "Authorization"

  /** Some public path is a string prefix of `path` ("/health" also admits
      "/healthz"). */
  predicate IsPublic(config: AuthConfig, path: string) {
    exists i :: 0 <= i < |config.publicPaths| && HasPrefix(path, config.publicPaths[i])
  }

  /** The header splits on ' ' into exactly two parts, the first "Bearer". */
  predicate BearerShaped(header: string) {
    var parts := Split(header, ' ');
    |parts| == 2 && parts[0] == "Bearer"
  }

  function BearerToken(header: string): (token: string)
    requires BearerShaped(header)
    ensures header == "Bearer " + token && ' ' !in token
  {
    var parts := Split(header, ' ');
    assert Join(parts, ' ') == parts[0] + [' '] + parts[1] by {
      assert parts[1..] == [parts[1]];
    }
    parts[1]
  }

  /** The decision of AuthMiddleware, in the order the checks are made. */
  function AuthDecision(config: AuthConfig, parse: string -> Option<Claims>, ctx: Option<Claims>, r: Request): Outcome {
    var header := r.HeaderGet(AuthorizationHeader);
    if IsPublic(config, r.path) then Next(ctx)
    else if header == "" then Fail(StatusUnauthorized, Message(NoAuthHeader))
    else if !BearerShaped(header) then Fail(StatusUnauthorized, Message(InvalidAuthType))
    else
      var claims := parse(BearerToken(header));
      if claims.None? then Fail(StatusUnauthorized, Message(InvalidToken))
      else if !Permitted(config, claims.value.roles, r.path, r.verb) then Fail(StatusForbidden, Message(InsufficientRole))
      else Next(Some(claims.value))
  }

  /** AuthMiddleware applied to one request: the public-path loop, the
      header checks, the token oracle, then the permission search. */
  method AuthMiddleware(config: AuthConfig, parse: string -> Option<Claims>, ctx: Option<Claims>, r: Request)
    returns (outcome: Outcome)
    ensures outcome == AuthDecision(config, parse, ctx, r)
  {
    var i := 0;
    while i < |config.publicPaths|
      invariant 0 <= i <= |config.publicPaths|
      invariant forall j :: 0 <= j < i ==> !HasPrefix(r.path, config.publicPaths[j])
    {
      if HasPrefix(r.path, config.publicPaths[i]) {
        return Next(ctx);
      }
      i := i + 1;
    }
    var authHeader := r.HeaderGet(AuthorizationHeader);
    if authHeader == "" {
      return Fail(StatusUnauthorized, Message(NoAuthHeader));
    }
    var parts := Split(authHeader, ' ');
    if |parts| != 2 || parts[0] != "Bearer" {
      return Fail(StatusUnauthorized, Message(InvalidAuthType));
    }
    var claims := parse(parts[1]);
    if claims.None? {
      return Fail(StatusUnauthorized, Message(InvalidToken));
    }
    var hasPermission := HasPermission(config, claims.value.roles, r.path, r.verb);
    if !hasPermission {
      return Fail(StatusForbidden, Message(InsufficientRole));
    }
    outcome := Next(Some(claims.value));
  }

  /** The header checks come before any token parsing: on a missing or
      malformed header the decision is the same whatever the oracle says. */
  lemma HeaderChecksPrecedeParsing(config: AuthConfig, parse1: string -> Option<Claims>, parse2: string -> Option<Claims>,
                                   ctx: Option<Claims>, r: Request)
    requires !IsPublic(config, r.path)
    requires !BearerShaped(r.HeaderGet(AuthorizationHeader))
    ensures AuthDecision(config, parse1, ctx, r) == AuthDecision(config, parse2, ctx, r)
    ensures AuthDecision(config, parse1, ctx, r).Fail?
    ensures AuthDecision(config, parse1, ctx, r).status == StatusUnauthorized
  {
  }

  /** The accepted headers are exactly `Bearer <token>` with a token free
      of spaces, and the token handed to the oracle is that token. */
  lemma BearerShapedExactly(token: string)
    requires ' ' !in token
    ensures BearerShaped("Bearer " + token) && BearerToken("Bearer " + token) == token
  {
    var parts := ["Bearer", token];
    assert Join(parts, ' ') == "Bearer " + token by {
      assert parts[1..] == [token];
    }
    SplitJoin(parts, ' ');
  }

  /** A request that passes authentication carries claims one of whose
      roles grants its method on its path, unless the path is public. */
  lemma PassedRequestsArePermitted(config: AuthConfig, parse: string -> Option<Claims>, ctx: Option<Claims>, r: Request)
    requires !IsPublic(config, r.path)
    requires AuthDecision(config, parse, ctx, r).Next?
    ensures AuthDecision(config, parse, ctx, r).ctx.Some?
    ensures var c := AuthDecision(config, parse, ctx, r).ctx.value;
      exists i :: 0 <= i < |c.roles| && RoleGrants(config, c.roles[i], r.path, r.verb)
  {
  }

  // ---------------------------------------------------------------------
  // ResourceOwnershipMiddleware
  // ---------------------------------------------------------------------

  /** extractResourceID: the text after the last '/', provided the path
      splits on '/' into at least three parts; otherwise "". */
  function ExtractResourceID(path: string): (id: string)
    ensures '/' !in id
    ensures |Split(path, '/')| < 3 ==> id == ""
    ensures |Split(path, '/')| >= 3 ==> |id| < |path| && path[|path| - |id| - 1..] == "/" + id
  {
    var parts := Split(path, '/');
    if |parts| < 3 then ""
    else
      JoinEndsWithLast(parts, '/');
      parts[|parts| - 1]
  }

  lemma {:induction false} JoinEndsWithLast(parts: seq<string>, sep: char)
    requires |parts| >= 2
    ensures var s, last := Join(parts, sep), parts[|parts| - 1];
      |last| < |s| && s[|s| - |last| - 1..] == [sep] + last
    decreases |parts|
  {
    var s, last := Join(parts, sep), parts[|parts| - 1];
    if |parts| == 2 {
      assert parts[1..] == [last];
    } else {
      JoinEndsWithLast(parts[1..], sep);
      var t := Join(parts[1..], sep);
      assert s == (parts[0] + [sep]) + t;
      assert s[|s| - |last| - 1..] == t[|t| - |last| - 1..];
    }
  }

  lemma ExtractFromTaskList()
    ensures ExtractResourceID("/api/v1/tasks") == "tasks"
  {
    var parts := ["", "api", "v1", "tasks"];
    assert Join(parts, '/') == "/api/v1/tasks" by {
      assert parts[1..] == ["api", "v1", "tasks"];
      assert parts[1..][1..] == ["v1", "tasks"];
      assert parts[1..][1..][1..] == ["tasks"];
    }
    SplitJoin(parts, '/');
  }

  /** hasResourceAccess is a stub that grants every access. */
  function HasResourceAccess(userId: string, resourceType: string, resourceId: string): (granted: bool)
    ensures granted
  {
    true
  }

  /** ResourceOwnershipMiddleware applied to one request. */
  method ResourceOwnershipMiddleware(resourceType: string, ctx: Option<Claims>, r: Request) returns (outcome: Outcome)
    ensures r.verb == "GET" && '/' !in r.path ==> outcome == Next(ctx)
    ensures !(r.verb == "GET" && '/' !in r.path) && ctx.None? ==> outcome == Fail(StatusUnauthorized, "unauthorized")
    ensures ctx.Some? ==> outcome == Next(ctx)
    ensures outcome.Fail? <==> !(r.verb == "GET" && '/' !in r.path) && ctx.None?
  {
    if r.verb == "GET" && !ContainsChar(r.path, '/') {
      return Next(ctx);
    }
    if ctx.None? {
      return Fail(StatusUnauthorized, "unauthorized");
    }
    var claims := ctx.value;
    var i := 0;
    while i < |claims.roles|
      invariant 0 <= i <= |claims.roles|
      invariant forall k :: 0 <= k < i ==> claims.roles[k] != "admin"
    {
      if claims.roles[i] == "admin" {
        return Next(ctx);
      }
      i := i + 1;
    }
    var resourceId := ExtractResourceID(r.path);
    if resourceId == "" {
      return Next(ctx);
    }
    if !HasResourceAccess(claims.userId, resourceType, resourceId) {
      return Fail(StatusForbidden, "forbidden");
    }
    outcome := Next(ctx);
  }

  // ---------------------------------------------------------------------
  // Roles
  // ---------------------------------------------------------------------

  /** HasRole: some required role equals some role of the user. */
  function HasRole(user: User, roles: seq<string>): (b: bool)
    ensures b <==> exists i :: 0 <= i < |roles| && roles[i] in user.roles
    decreases |roles|
  {
    if roles == [] then false
    else roles[0] in user.roles || HasRole(user, roles[1..])
  }

  /** With no required role, or a user holding no role, HasRole is false. */
  lemma HasRoleNeedsBoth(user: User, roles: seq<string>)
    requires roles == [] || user.roles == []
    ensures !HasRole(user, roles)
  {
  }

  /** Adding roles to the user or to the required list never turns a true
      answer into false. */
  lemma HasRoleMonotone(user: User, extraUser: seq<string>, roles: seq<string>, extraRoles: seq<string>)
    requires HasRole(user, roles)
    ensures HasRole(User(user.id, user.roles + extraUser), roles + extraRoles)
  {
    var bigger := User(user.id, user.roles + extraUser);
    var i :| 0 <= i < |roles| && roles[i] in user.roles;
    assert (roles + extraRoles)[i] in bigger.roles;
  }

  /** RequireRoles applied to one request. */
  function RequireRoles(roles: seq<string>, ctx: Option<Claims>): (outcome: Outcome)
    ensures outcome.Next? ==> outcome.ctx == ctx
    ensures outcome == Next(ctx) <==> ctx.Some? && HasRole(User(ctx.value.userId, ctx.value.roles), roles)
    ensures ctx.None? ==> outcome == Fail(StatusUnauthorized, "unauthorized")
    ensures ctx.Some? && !HasRole(User(ctx.value.userId, ctx.value.roles), roles) ==>
      outcome == Fail(StatusForbidden, "forbidden")
  {
    var (user, err) := GetUserFromContext(ctx);
    if err.Some? then Fail(StatusUnauthorized, "unauthorized")
    else if !HasRole(user, roles) then Fail(StatusForbidden, "forbidden")
    else Next(ctx)
  }

  // ---------------------------------------------------------------------
  // The auth service
  // ---------------------------------------------------------------------

  /** GetUserFromContext: the user named by the claims, or the empty user
      and ErrUserNotFound when there are none. */
  function GetUserFromContext(ctx: Option<Claims>): (r: (User, Option<AuthError>))
    ensures r.1 == None <==> ctx.Some?
    ensures ctx.None? ==> r == (User("", []), Some(UserNotFound))
    ensures ctx.Some? ==> r.0.id == ctx.value.userId && r.0.roles == ctx.value.roles
  {
    if ctx.None? then (User("", []), Some(UserNotFound))
    else (User(ctx.value.userId, ctx.value.roles), None)
  }

  /** CanAccessResource: the missing-user error, or none for an admin, or
      ErrResourceNotOwned when ownership is refused. */
  function CanAccessResource(ctx: Option<Claims>, resourceType: string, resourceId: string): (err: Option<AuthError>)
    ensures ctx.None? ==> err == Some(UserNotFound)
    ensures ctx.Some? && "admin" in ctx.value.roles ==> err == None
  {
    var (user, e) := GetUserFromContext(ctx);
    if e.Some? then e
    else if HasRole(user, ["admin"]) then None
    else if !HasResourceAccess(user.id, resourceType, resourceId) then Some(ResourceNotOwned)
    else None
  }

  /** Since ownership is never refused, exactly the requests with claims
      may access any resource. */
  lemma AccessIffClaims(ctx: Option<Claims>, resourceType: string, resourceId: string)
    ensures CanAccessResource(ctx, resourceType, resourceId) == None <==> ctx.Some?
    ensures CanAccessResource(ctx, resourceType, resourceId) != Some(ResourceNotOwned)
  {
  }

  /** TaskService.UpdateTask: the answer of CanAccessResource for the task. */
  function UpdateTask(ctx: Option<Claims>, taskId: string): (err: Option<AuthError>)
    ensures err == CanAccessResource(ctx, "task", taskId)
  {
    var e := CanAccessResource(ctx, "task", taskId);
    if e.Some? then e else None
  }

  // ---------------------------------------------------------------------
  // DefaultRoles
  // ---------------------------------------------------------------------

  const DefaultRoles: map<string, Role> := map[
    "admin" := Role("admin", map[
      "/api/v1/tasks" := ["GET", "POST", "PUT", "DELETE"],
      "/api/v1/tasks/{id}" := ["GET", "PUT", "DELETE"],
      "/api/v1/users" := ["GET", "POST", "PUT", "DELETE"],
      "/api/v1/users/{id}" := ["GET", "PUT", "DELETE"],
      "/api/v1/metrics" := ["GET"],
      "/api/v1/settings" := ["GET", "PUT"]]),
    "user" := Role("user", map[
      "/api/v1/tasks" := ["GET", "POST"],
      "/api/v1/tasks/{id}" := ["GET", "PUT", "DELETE"],
      "/api/v1/users/me" := ["GET", "PUT"]]),
    "viewer" := Role("viewer", map[
      "/api/v1/tasks" := ["GET"],
      "/api/v1/tasks/{id}" := ["GET"]])]

  /** Under DefaultRoles a viewer is granted reads only. */
  lemma ViewerOnlyReads(path: string, verb: string)
    requires RoleGrants(AuthConfig(DefaultRoles, []), "viewer", path, verb)
    ensures verb == "GET"
  {
    var perms := DefaultRoles["viewer"].permissions;
    var p :| p in perms && MatchPath(p, path) && verb in perms[p];
    assert perms[p] == ["GET"];
  }

  /** Under DefaultRoles a user may not PUT or DELETE the task list. */
  lemma UserCannotModifyTaskList(verb: string)
    requires verb == "PUT" || verb == "DELETE"
    ensures !RoleGrants(AuthConfig(DefaultRoles, []), "user", "/api/v1/tasks", verb)
  {
    var perms := DefaultRoles["user"].permissions;
    var path := "/api/v1/tasks";
    assert perms.Keys == {"/api/v1/tasks", "/api/v1/tasks/{id}", "/api/v1/users/me"};
    PrefixThenPlaceholder("/api/v1/tasks/", path);
    assert "/api/v1/tasks/" + Placeholder == "/api/v1/tasks/{id}";
    LiteralPatternMatchesOnlyItself("/api/v1/users/me", path);
  }

  /** Under DefaultRoles a viewer may read a single task by id. */
  lemma ViewerReadsTaskById(path: string)
    requires path == "/api/v1/tasks/abc-123"
    ensures RoleGrants(AuthConfig(DefaultRoles, []), "viewer", path, "GET")
  {
    var prefix := "/api/v1/tasks/";
    var pattern := prefix + Placeholder;
    assert pattern == "/api/v1/tasks/{id}";
    PrefixThenPlaceholder(prefix, path);
    assert path[..|prefix|] == prefix;
    assert path[|prefix|..] == "abc-123";
    assert MatchPath(pattern, path);
    assert pattern in DefaultRoles["viewer"].permissions;
  }

  /** `{id}` never spans a '/': a path nested below a task does not match the
      single-task pattern. */
  lemma IdDoesNotSpanSlash(pattern: string, path: string)
    requires pattern == "/api/v1/tasks/{id}"
    requires path == "/api/v1/tasks/abc/123"
    ensures !MatchPath(pattern, path)
  {
    var prefix := "/api/v1/tasks/";
    assert pattern == prefix + Placeholder;
    PrefixThenPlaceholder(prefix, path);
    assert path[|prefix|..][3] == '/';
  }
}
