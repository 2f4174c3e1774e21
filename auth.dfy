/**
 * The RBAC middleware of the MCP server, emvr/mcp_server/middleware/auth.py: the role
 * configuration with its empty fallback, a user's permissions as the union over the
 * user's roles, `check_permission`, and the control flow of the `requires_permission`
 * wrapper (request lookup, the SKIP_AUTH bypass, the Authorization header and token).
 *
 * JWT decoding is a parameter: it yields the payload, or None for a PyJWTError. The
 * environment variables are parameters.
 */
module Auth {
  import opened Outcomes
  import opened Text

  /**
   * The parsed rbac.json: each role's permissions and each user's roles. A role or a user
   * without a "permissions" or "roles" entry lists nothing.
   */
  datatype Rbac = Rbac(roles: map<string, seq<string>>, users: map<string, seq<string>>)

  /** What reading the configuration file gives. */
  datatype ConfigFile = Missing | Unreadable | Parsed(config: Rbac)

  /** `load_rbac_config`: a missing or unreadable file configures no roles and no users. */
  function LoadRbacConfig(file: ConfigFile): (c: Rbac)
    ensures file.Parsed? ==> c == file.config
    ensures !file.Parsed? ==> c.roles == map[] && c.users == map[]
  {
    match file
    case Parsed(config) => config
    case _ => Rbac(map[], map[])
  }

  /** `rbac_config["users"].get(user_id, {}).get("roles", [])`. */
  function UserRoles(rbac: Rbac, userId: string): seq<string>
  {
    if userId in rbac.users then rbac.users[userId] else []
  }

  /** The permissions one role grants; an unknown role grants none. */
  function RolePermissions(rbac: Rbac, role: string): set<string>
  {
    if role in rbac.roles then set p | p in rbac.roles[role] else {}
  }

  /** The union of the permissions of the roles, taken in order. */
  function Granted(rbac: Rbac, roles: seq<string>): set<string>
  {
    if roles == [] then {}
    else Granted(rbac, roles[..|roles| - 1]) + RolePermissions(rbac, roles[|roles| - 1])
  }

  function UserPermissions(rbac: Rbac, userId: string): set<string>
  {
    Granted(rbac, UserRoles(rbac, userId))
  }

  /**
   * A permission is granted exactly when one of the roles is configured and lists it:
   * unknown roles contribute nothing.
   */
  lemma {:induction false} GrantedFacts(rbac: Rbac, roles: seq<string>, p: string)
    ensures p in Granted(rbac, roles) <==>
              exists i :: 0 <= i < |roles| && roles[i] in rbac.roles && p in rbac.roles[roles[i]]
    decreases |roles|
  {
    if roles != [] {
      var init := roles[..|roles| - 1];
      GrantedFacts(rbac, init, p);
      if p in Granted(rbac, roles) {
        if p !in Granted(rbac, init) {
          var i := |roles| - 1;
          assert roles[i] in rbac.roles && p in rbac.roles[roles[i]];
        } else {
          var i :| 0 <= i < |init| && init[i] in rbac.roles && p in rbac.roles[init[i]];
          assert roles[i] == init[i];
        }
      } else {
        forall i | 0 <= i < |roles| && roles[i] in rbac.roles
          ensures p !in rbac.roles[roles[i]]
        {
          if i < |init| {
            assert roles[i] == init[i];
          }
        }
      }
    }
  }

  /**
   * A user's permissions are those listed by one of the user's configured roles; a user
   * missing from the configuration has none.
   */
  lemma UserPermissionsFacts(rbac: Rbac, userId: string, p: string)
    ensures p in UserPermissions(rbac, userId) <==>
              userId in rbac.users
              && exists i :: 0 <= i < |rbac.users[userId]| && rbac.users[userId][i] in rbac.roles
                             && p in rbac.roles[rbac.users[userId][i]]
    ensures userId !in rbac.users ==> UserPermissions(rbac, userId) == {}
  {
    GrantedFacts(rbac, UserRoles(rbac, userId), p);
  }

  /** `get_user_permissions`: `permissions.update` role by role. */
  method GetUserPermissions(rbac: Rbac, userId: string) returns (permissions: set<string>)
    ensures permissions == UserPermissions(rbac, userId)
  {
    permissions := {};
    var userRoles := if userId in rbac.users then rbac.users[userId] else [];
    var i := 0;
    while i < |userRoles|
      invariant 0 <= i <= |userRoles|
      invariant permissions == Granted(rbac, userRoles[..i])
    {
      var role := userRoles[i];
      var rolePermissions := if role in rbac.roles then rbac.roles[role] else [];
      assert userRoles[..i + 1][..i] == userRoles[..i];
      permissions := permissions + set p | p in rolePermissions;
      i := i + 1;
    }
    assert userRoles[..i] == userRoles;
  }

  /** An HTTPException: its status, detail and whether it carries `WWW-Authenticate: Bearer`. */
  datatype HttpError = HttpError(status: nat, detail: string, bearer: bool)

  const NotEnoughPermissions: HttpError := HttpError(403, "Not enough permissions", false)
  const InvalidCredentials: HttpError := HttpError(401, "Invalid authentication credentials", true)
  const HeaderMissing: HttpError := HttpError(401, "Authorization header is missing", true)
  const NoRequest: HttpError := HttpError(500, "Request object not found in function arguments", false)

  /** A decoded token; `sub` is absent when the token does not carry it. */
  datatype Payload = Payload(sub: Option<string>)

  /** `check_permission(required)(payload)`: None when it passes, the 403 it raises otherwise. */
  function CheckPermission(rbac: Rbac, required: string, payload: Payload): Option<HttpError>
  {
    var permissions := UserPermissions(rbac, payload.sub.GetOr(""));
    if "*" in permissions || required in permissions then None else Some(NotEnoughPermissions)
  }

  /**
   * The check passes exactly when one of the subject's configured roles lists "*" or the
   * required permission, and otherwise fails with 403 "Not enough permissions".
   */
  lemma CheckPermissionFacts(rbac: Rbac, required: string, payload: Payload)
    ensures var user := payload.sub.GetOr("");
            CheckPermission(rbac, required, payload).None? <==>
              user in rbac.users
              && exists i :: 0 <= i < |rbac.users[user]| && rbac.users[user][i] in rbac.roles
                             && ("*" in rbac.roles[rbac.users[user][i]]
                                 || required in rbac.roles[rbac.users[user][i]])
    ensures CheckPermission(rbac, required, payload).Some? ==>
              CheckPermission(rbac, required, payload).value == HttpError(403, "Not enough permissions", false)
  {
    var user := payload.sub.GetOr("");
    UserPermissionsFacts(rbac, user, "*");
    UserPermissionsFacts(rbac, user, required);
  }

  /** `verify_token`: the payload, or 401 "Invalid authentication credentials". */
  function VerifyToken(credentials: string, decode: string -> Option<Payload>): (r: Result<Payload>)
    ensures r.Ok? <==> decode(credentials).Some?
    ensures r.Ok? ==> r.value == decode(credentials).value
    ensures r.Err? ==> r.error == InvalidCredentials.detail
  {
    match decode(credentials)
    case Some(payload) => Ok(payload)
    case None => Err(InvalidCredentials.detail)
  }

  /** An argument of the wrapped function: a Request (with its Authorization header) or not. */
  datatype Arg = RequestArg(authorization: Option<string>) | OtherArg

  /** The position of the first Request among the arguments; their number when there is none. */
  function RequestIndex(args: seq<Arg>): (k: nat)
    ensures k <= |args|
    ensures forall j :: 0 <= j < k ==> !args[j].RequestArg?
    ensures k < |args| ==> args[k].RequestArg?
  {
    if args == [] || args[0].RequestArg? then 0 else 1 + RequestIndex(args[1..])
  }

  /** The first Request among the arguments. */
  function FirstRequest(args: seq<Arg>): Option<Arg>
  {
    var k := RequestIndex(args);
    if k < |args| then Some(args[k]) else None
  }

  /** Request-free arguments in front only shift the position of the first Request. */
  lemma {:induction false} RequestIndexAfter(front: seq<Arg>, rest: seq<Arg>)
    requires forall i :: 0 <= i < |front| ==> !front[i].RequestArg?
    ensures RequestIndex(front + rest) == |front| + RequestIndex(rest)
    decreases |front|
  {
    if front != [] {
      var all := front + rest;
      assert all[0] == front[0] && !front[0].RequestArg?;
      assert all[1..] == front[1..] + rest;
      RequestIndexAfter(front[1..], rest);
    } else {
      assert front + rest == rest;
    }
  }

  /** Request-free arguments in front do not change the first Request. */
  lemma FirstRequestAfter(front: seq<Arg>, rest: seq<Arg>)
    requires forall i :: 0 <= i < |front| ==> !front[i].RequestArg?
    ensures FirstRequest(front + rest) == FirstRequest(rest)
  {
    RequestIndexAfter(front, rest);
  }

  /**
   * The Request lookup of the wrapper: the first Request among the positional arguments,
   * else the first among the keyword arguments' values.
   */
  method FindRequest(args: seq<Arg>, kwargs: seq<Arg>) returns (request: Option<Arg>)
    ensures request == FirstRequest(args + kwargs)
  {
    var i := 0;
    while i < |args|
      invariant 0 <= i <= |args|
      invariant forall j :: 0 <= j < i ==> !args[j].RequestArg?
    {
      if args[i].RequestArg? {
        assert args + kwargs == args[..i] + (args[i..] + kwargs);
        FirstRequestAfter(args[..i], args[i..] + kwargs);
        return Some(args[i]);
      }
      i := i + 1;
    }
    FirstRequestAfter(args, kwargs);
    request := None;
    var k := 0;
    while k < |kwargs|
      invariant 0 <= k <= |kwargs|
      invariant forall j :: 0 <= j < k ==> !kwargs[j].RequestArg?
    {
      if kwargs[k].RequestArg? {
        assert kwargs == kwargs[..k] + kwargs[k..];
        FirstRequestAfter(kwargs[..k], kwargs[k..]);
        request := Some(kwargs[k]);
        break;
      }
      k := k + 1;
    }
  }

  /** `os.getenv("SKIP_AUTH", "").lower() in ("true", "1", "yes")`. */
  predicate SkipAuth(skipAuth: Option<string>)
  {
    Lower(skipAuth.GetOr("")) in {"true", "1", "yes"}
  }

  /** `auth_header.split(" ")[1]`: the text between the first space and the next; None for the IndexError. */
  function TokenOf(header: string): Option<string>
  {
    match SplitFirst(header, ' ')
    case None => None
    case Some((_, after)) => Some(SplitOn(after, ' ')[0])
  }

  /** The split has a second piece exactly when the header holds a space, and that piece is the token. */
  lemma TokenOfSplit(header: string)
    ensures |SplitOn(header, ' ')| >= 2 <==> TokenOf(header).Some?
    ensures TokenOf(header).Some? ==> SplitOn(header, ' ')[1] == TokenOf(header).value
  {
    match SplitFirst(header, ' ')
    case None => SplitOnFree(header, ' ');
    case Some((before, after)) => SplitOnAfter(before, after, ' ');
  }

  /** What the wrapper does: call the wrapped function, or raise the HTTP error. */
  datatype Guard = Call | Reject(error: HttpError)

  /** The decision of `requires_permission(permission)` for one call. */
  function RequiresPermissionSpec(rbac: Rbac, permission: string, args: seq<Arg>, kwargs: seq<Arg>,
                                  skipAuth: Option<string>, decode: string -> Option<Payload>): Guard
  {
    var request := FirstRequest(args + kwargs);
    if request.None? then Reject(NoRequest)
    else if SkipAuth(skipAuth) then Call
    else
      var header := request.value.authorization;
      if header.None? || header.value == "" then Reject(HeaderMissing)
      else match TokenOf(header.value)
        case None => Reject(InvalidCredentials)
        case Some(token) =>
          match decode(token)
          case None => Reject(InvalidCredentials)
          case Some(payload) =>
            match CheckPermission(rbac, permission, payload)
            case None => Call
            case Some(e) => Reject(e)
  }

  /**
   * The order of the wrapper's checks: without a Request the call fails with 500 even
   * when SKIP_AUTH is set; with one, SKIP_AUTH lets every call through; a missing header
   * and a header without a space give 401; a token that decodes but whose subject lacks
   * the permission gives 403, not 401; and the call goes ahead exactly in those cases.
   */
  lemma RequiresPermissionFacts(rbac: Rbac, permission: string, args: seq<Arg>, kwargs: seq<Arg>,
                                skipAuth: Option<string>, decode: string -> Option<Payload>)
    ensures var g := RequiresPermissionSpec(rbac, permission, args, kwargs, skipAuth, decode);
            var request := FirstRequest(args + kwargs);
            && ((forall i :: 0 <= i < |args + kwargs| ==> !(args + kwargs)[i].RequestArg?) ==>
                  g == Reject(HttpError(500, "Request object not found in function arguments", false)))
            && (request.Some? && SkipAuth(skipAuth) ==> g == Call)
            && (request.Some? && !SkipAuth(skipAuth) ==>
                  var header := request.value.authorization;
                  && (header.None? || header.value == "" ==>
                        g == Reject(HttpError(401, "Authorization header is missing", true)))
                  && (header.Some? && header.value != "" && ' ' !in header.value ==>
                        g == Reject(HttpError(401, "Invalid authentication credentials", true)))
                  && (header.Some? && ' ' in header.value ==>
                        |SplitOn(header.value, ' ')| >= 2 &&
                        var token := SplitOn(header.value, ' ')[1];
                        && (decode(token).None? ==> g == Reject(HttpError(401, "Invalid authentication credentials", true)))
                        && (decode(token).Some? ==>
                              (g == Call <==> CheckPermission(rbac, permission, decode(token).value).None?)
                              && (g != Call ==> g == Reject(HttpError(403, "Not enough permissions", false))))))
  {
    var request := FirstRequest(args + kwargs);
    if request.Some? && request.value.authorization.Some? {
      var header := request.value.authorization.value;
      TokenOfSplit(header);
      if ' ' in header {
        assert |SplitOn(header, ' ')| >= 2;
      }
    }
  }

  /**
   * The wrapper of `requires_permission`, up to the call: the Request lookup, then the
   * checks in their order.
   */
  method RequiresPermission(rbac: Rbac, permission: string, args: seq<Arg>, kwargs: seq<Arg>,
                            skipAuth: Option<string>, decode: string -> Option<Payload>) returns (g: Guard)
    ensures g == RequiresPermissionSpec(rbac, permission, args, kwargs, skipAuth, decode)
  {
    var request := FindRequest(args, kwargs);
    if request.None? {
      return Reject(NoRequest);
    }
    if SkipAuth(skipAuth) {
      return Call;
    }
    var header := request.value.authorization;
    if header.None? || header.value == "" {
      return Reject(HeaderMissing);
    }
    var parts := SplitOn(header.value, ' ');
    TokenOfSplit(header.value);
    if |parts| < 2 {
      return Reject(InvalidCredentials);
    }
    var payload := decode(parts[1]);
    if payload.None? {
      return Reject(InvalidCredentials);
    }
    var check := CheckPermission(rbac, permission, payload.value);
    g := if check.None? then Call else Reject(check.value);
  }
}
