/**
 * The two routers and the access policy they define.
 *
 * A router is a list of layers tried in registration order: `router.use(authenticate)`
 * runs `authenticate` on every request that reaches it, and a route answers a
 * request whose method and path it matches, after its `authorize` guard if it
 * has one. A request no layer answers falls through (Express then answers 404).
 * Paths are relative to the router's mount point, as lists of segments.
 */
module Routes {
  import opened Wrappers
  import Auth

  datatype HttpMethod = Get | Head | Post | Put | Patch | Delete

  /** A route path: '/', '/:id', or a fixed one-segment path such as '/signup'. */
  datatype Pattern = Root | IdParam | Literal(segment: string)

  /** The controller a route ends in. */
  datatype Handler = CreateRisk | GetRisks | UpdateRisk | DeleteRisk | Signup | Login | GetAllUsers

  /** The middleware in front of a route's controller. */
  datatype Guard = Open | AuthorizeRoles(roles: seq<string>)

  datatype Layer =
    | UseAuthenticate
    | Route(verb: HttpMethod, pattern: Pattern, guard: Guard, handler: Handler)

  /** server/routes/risks.js */
  const RiskRouter: seq<Layer> := [
    UseAuthenticate,
    Route(Post, Root, AuthorizeRoles(["risk_manager", "admin"]), CreateRisk),
    Route(Get, Root, AuthorizeRoles(["viewer", "risk_manager", "admin"]), GetRisks),
    Route(Put, IdParam, AuthorizeRoles(["risk_manager", "admin"]), UpdateRisk),
    Route(Delete, IdParam, AuthorizeRoles(["admin"]), DeleteRisk)
  ]

  /** server/routes/users.js */
  const UserRouter: seq<Layer> := [
    Route(Post, Literal("signup"), Open, Signup),
    Route(Post, Literal("login"), Open, Login),
    UseAuthenticate,
    Route(Get, Root, AuthorizeRoles(["admin"]), GetAllUsers)
  ]

  /** A route registered for `routeMethod` serves `verb`; a GET route also serves HEAD. */
  predicate MethodMatches(routeMethod: HttpMethod, verb: HttpMethod)
  {
    routeMethod == verb || (routeMethod == Get && verb == Head)
  }

  /** Whether a path matches a pattern; ':id' takes any one non-empty segment. */
  predicate PathMatches(pattern: Pattern, path: seq<string>)
  {
    match pattern
    case Root => path == []
    case IdParam => |path| == 1 && path[0] != ""
    case Literal(s) => path == [s]
  }

  /** What becomes of a request. */
  datatype Outcome =
    | Handled(handler: Handler, user: Option<Auth.User>)  // the controller runs, with `req.user`
    | Responded(status: nat, message: string)             // a middleware answered
    | Fault                                                // `authorize` threw: no user on the request
    | Unmatched                                            // no layer answered

  /** Run a request through the layers, with `user` the user recorded so far. */
  function Dispatch(layers: seq<Layer>, verb: HttpMethod, path: seq<string>, header: Option<string>,
                    verify: string -> Auth.Verification, findById: Option<string> -> Auth.Lookup,
                    user: Option<Auth.User>): Outcome
    decreases |layers|
  {
    if layers == [] then Unmatched
    else match layers[0]
      case UseAuthenticate =>
        (match Auth.Authentication(header, verify, findById)
         case Rejected(message) => Responded(401, message)
         case Authenticated(u, _) => Dispatch(layers[1..], verb, path, header, verify, findById, Some(u)))
      case Route(m, pattern, guard, handler) =>
        if MethodMatches(m, verb) && PathMatches(pattern, path) then
          match guard
          case Open => Handled(handler, user)
          case AuthorizeRoles(roles) =>
            match Auth.Authorization(roles, user)
            case Pass => Handled(handler, user)
            case Deny(status, message) => Responded(status, message)
            case Fault => Fault
        else Dispatch(layers[1..], verb, path, header, verify, findById, user)
  }

  /** A request to a router, as it arrives: no user recorded yet. */
  function Serve(router: seq<Layer>, verb: HttpMethod, path: seq<string>, header: Option<string>,
                 verify: string -> Auth.Verification, findById: Option<string> -> Auth.Lookup): Outcome
  {
    Dispatch(router, verb, path, header, verify, findById, None)
  }

  // ---------------------------------------------------------------------------
  // The access-control matrix, stated on its own

  /** The risk controller a request is for, if any. */
  function RiskEndpoint(verb: HttpMethod, path: seq<string>): Option<Handler>
  {
    if path == [] then
      if verb == Post then Some(CreateRisk)
      else if verb == Get || verb == Head then Some(GetRisks)
      else None
    else if |path| == 1 && path[0] != "" then
      if verb == Put then Some(UpdateRisk)
      else if verb == Delete then Some(DeleteRisk)
      else None
    else None
  }

  /** The roles allowed to reach each controller behind `authenticate`. */
  function AllowedRoles(handler: Handler): set<string>
  {
    match handler
    case CreateRisk => {"risk_manager", "admin"}
    case GetRisks => {"viewer", "risk_manager", "admin"}
    case UpdateRisk => {"risk_manager", "admin"}
    case DeleteRisk => {"admin"}
    case GetAllUsers => {"admin"}
    case Signup => {}
    case Login => {}
  }

  /** Behind `authenticate`, the risk routes send an authenticated user to the
      controller the request names iff the user's role is allowed there. */
  lemma RiskRoutesAfterAuthentication(verb: HttpMethod, path: seq<string>, header: Option<string>,
                                      verify: string -> Auth.Verification, findById: Option<string> -> Auth.Lookup,
                                      user: Auth.User)
    ensures Dispatch(RiskRouter[1..], verb, path, header, verify, findById, Some(user)) ==
      match RiskEndpoint(verb, path)
      case None => Unmatched
      case Some(h) =>
        if user.role in AllowedRoles(h) then Handled(h, Some(user))
        else Responded(403, Auth.UnauthorizedAccess)
  {
    var create := RiskRouter[1..];
    var list := create[1..];
    var update := list[1..];
    var delete := update[1..];
    assert create[0] == Route(Post, Root, AuthorizeRoles(["risk_manager", "admin"]), CreateRisk);
    assert list[0] == Route(Get, Root, AuthorizeRoles(["viewer", "risk_manager", "admin"]), GetRisks);
    assert update[0] == Route(Put, IdParam, AuthorizeRoles(["risk_manager", "admin"]), UpdateRisk);
    assert delete == [Route(Delete, IdParam, AuthorizeRoles(["admin"]), DeleteRisk)];
    assert delete[1..] == [];
    var u := Some(user);
    if !(verb == Post && path == []) {
      SkipRoute(create, verb, path, header, verify, findById, u);
      if !((verb == Get || verb == Head) && path == []) {
        SkipRoute(list, verb, path, header, verify, findById, u);
        if !(verb == Put && PathMatches(IdParam, path)) {
          SkipRoute(update, verb, path, header, verify, findById, u);
          if !(verb == Delete && PathMatches(IdParam, path)) {
            SkipRoute(delete, verb, path, header, verify, findById, u);
          }
        }
      }
    }
  }

  /** A route that does not match passes the request on to the next layer. */
  lemma SkipRoute(layers: seq<Layer>, verb: HttpMethod, path: seq<string>, header: Option<string>,
                  verify: string -> Auth.Verification, findById: Option<string> -> Auth.Lookup,
                  user: Option<Auth.User>)
    requires layers != [] && layers[0].Route?
    requires !(MethodMatches(layers[0].verb, verb) && PathMatches(layers[0].pattern, path))
    ensures Dispatch(layers, verb, path, header, verify, findById, user)
      == Dispatch(layers[1..], verb, path, header, verify, findById, user)
  {
  }

  /** The risk router: a request that fails authentication gets 401 whatever its
      verb and path; an authenticated one reaches its controller iff the user's
      role is allowed there, gets 403 otherwise, and falls through when it names
      no risk route. */
  lemma RiskAccessMatrix(verb: HttpMethod, path: seq<string>, header: Option<string>,
                         verify: string -> Auth.Verification, findById: Option<string> -> Auth.Lookup)
    ensures Auth.Authentication(header, verify, findById).Rejected? ==>
      Serve(RiskRouter, verb, path, header, verify, findById)
        == Responded(401, Auth.Authentication(header, verify, findById).message)
    ensures Auth.Authentication(header, verify, findById).Authenticated? ==>
      var user := Auth.Authentication(header, verify, findById).user;
      Serve(RiskRouter, verb, path, header, verify, findById) ==
        match RiskEndpoint(verb, path)
        case None => Unmatched
        case Some(h) =>
          if user.role in AllowedRoles(h) then Handled(h, Some(user))
          else Responded(403, Auth.UnauthorizedAccess)
  {
    match Auth.Authentication(header, verify, findById)
    case Rejected(_) =>
    case Authenticated(user, _) =>
      RiskRoutesAfterAuthentication(verb, path, header, verify, findById, user);
  }

  /** Every risk controller runs only for an authenticated user, and with that user. */
  lemma RiskRoutesNeedAuthentication(verb: HttpMethod, path: seq<string>, header: Option<string>,
                                     verify: string -> Auth.Verification, findById: Option<string> -> Auth.Lookup)
    ensures Serve(RiskRouter, verb, path, header, verify, findById).Handled? ==>
      && Auth.Authentication(header, verify, findById).Authenticated?
      && Serve(RiskRouter, verb, path, header, verify, findById).user
           == Some(Auth.Authentication(header, verify, findById).user)
    ensures Serve(RiskRouter, verb, path, header, verify, findById) != Fault
  {
    RiskAccessMatrix(verb, path, header, verify, findById);
  }

  /** A viewer can list risks but cannot create, update or delete one; an admin can
      reach every risk route. */
  lemma ViewerReadsAdminDoesAll(verb: HttpMethod, path: seq<string>, header: Option<string>,
                                verify: string -> Auth.Verification, findById: Option<string> -> Auth.Lookup)
    requires Auth.Authentication(header, verify, findById).Authenticated?
    requires RiskEndpoint(verb, path).Some?
    ensures Auth.Authentication(header, verify, findById).user.role == "viewer" ==>
      (Serve(RiskRouter, verb, path, header, verify, findById).Handled? <==> verb == Get || verb == Head)
    ensures Auth.Authentication(header, verify, findById).user.role == "admin" ==>
      Serve(RiskRouter, verb, path, header, verify, findById).Handled?
  {
    RiskAccessMatrix(verb, path, header, verify, findById);
  }

  /** The user router: 'signup' and 'login' are answered without authentication,
      whatever header the request carries, because they come before `authenticate`. */
  lemma SignupAndLoginArePublic(header: Option<string>, verify: string -> Auth.Verification,
                                findById: Option<string> -> Auth.Lookup)
    ensures Serve(UserRouter, Post, ["signup"], header, verify, findById) == Handled(Signup, None)
    ensures Serve(UserRouter, Post, ["login"], header, verify, findById) == Handled(Login, None)
  {
    assert ["login"] != ["signup"] by { assert ["login"][0] != ["signup"][0]; }
  }

  /** Listing users: 401 without authentication, then the admin role is required. */
  lemma ListUsersNeedsAdmin(header: Option<string>, verify: string -> Auth.Verification,
                            findById: Option<string> -> Auth.Lookup)
    ensures Serve(UserRouter, Get, [], header, verify, findById) ==
      match Auth.Authentication(header, verify, findById)
      case Rejected(message) => Responded(401, message)
      case Authenticated(user, _) =>
        if user.role == "admin" then Handled(GetAllUsers, Some(user))
        else Responded(403, Auth.UnauthorizedAccess)
    ensures Serve(UserRouter, Get, [], header, verify, findById).Handled? ==>
      Auth.Authentication(header, verify, findById).user.role in AllowedRoles(GetAllUsers)
  {
    var afterAuth := UserRouter[3..];
    assert UserRouter[1..][1..] == UserRouter[2..];
    assert UserRouter[2..][1..] == afterAuth;
  }

  /** Neither a viewer nor a risk manager can list users. */
  lemma NonAdminCannotListUsers(header: Option<string>, verify: string -> Auth.Verification,
                                findById: Option<string> -> Auth.Lookup)
    requires Auth.Authentication(header, verify, findById).Authenticated?
    requires Auth.Authentication(header, verify, findById).user.role in {"viewer", "risk_manager"}
    ensures Serve(UserRouter, Get, [], header, verify, findById) == Responded(403, Auth.UnauthorizedAccess)
  {
    ListUsersNeedsAdmin(header, verify, findById);
  }
}
