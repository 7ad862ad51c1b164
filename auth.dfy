/**
 * The authentication and authorization middleware.
 *
 * `authenticate` takes the token from the Authorization header, verifies it,
 * looks the user up and either records user and token on the request and
 * calls `next`, or answers 401. `authorize(...roles)` lets a request through
 * iff the authenticated user's role is one of `roles`, and answers 403
 * otherwise.
 *
 * Token verification and the user lookup are services outside this model; they
 * are passed in as functions, each with its own failure outcome.
 */
module Auth {
  import opened Wrappers
  import Text

  const BearerPrefix: string := "Bearer "
  const AuthenticationRequired: string := "Authentication required"
  const UserNotFound: string := "User not found"
  const AuthenticationFailed: string := "Authentication failed"
  const UnauthorizedAccess: string := "Unauthorized access"

  /** A stored user, as far as the middleware looks at it. */
  datatype User = User(id: string, role: string)

  /** What `verifyToken` does with a token: returns the decoded payload (whose
      `userId` may be missing) or throws an error with a message. */
  datatype Verification = Decoded(userId: Option<string>) | VerifyError(message: string)

  /** What `User.findById` does with an id: finds a user, finds nothing, or
      rejects with an error message. */
  datatype Lookup = Found(user: User) | NotFound | LookupError(message: string)

  /** The JSON body of an error response. */
  datatype ErrorBody = ErrorBody(success: bool, error: string)

  // ---------------------------------------------------------------------------
  // Token extraction

  /** `req.header('Authorization')?.replace('Bearer ', '')`: the first occurrence of
      'Bearer ' is removed; a missing header gives `undefined`. */
  function ExtractToken(header: Option<string>): Option<string>
  {
    match header
    case None => None
    case Some(h) => Some(Text.ReplaceFirst(h, BearerPrefix, ""))
  }

  /** A token is usable iff it is present and not the empty string (`!token` is false). */
  predicate Truthy(token: Option<string>)
  {
    token.Some? && token.value != ""
  }

  /** The header a client builds from a token gives the token back. */
  lemma ExtractFromBearerHeader(token: string)
    ensures ExtractToken(Some(BearerPrefix + token)) == Some(token)
  {
    var header := BearerPrefix + token;
    assert Text.OccursAt(header, BearerPrefix, 0) by {
      assert header[..|BearerPrefix|] == BearerPrefix;
    }
    Text.ReplaceFirstAt(header, BearerPrefix, "", 0);
    assert header[..0] + "" + header[|BearerPrefix|..] == token;
  }

  /** A header without 'Bearer ' is used unchanged as the token. */
  lemma ExtractWithoutPrefix(header: string)
    requires forall k :: 0 <= k <= |header| ==> !Text.OccursAt(header, BearerPrefix, k)
    ensures ExtractToken(Some(header)) == Some(header)
  {
    Text.ReplaceFirstAbsent(header, BearerPrefix, "");
  }

  /** Only the first 'Bearer ' is removed, wherever it stands. */
  lemma ExtractRemovesFirstOccurrence(header: string, i: nat)
    requires Text.OccursAt(header, BearerPrefix, i)
    requires forall k :: 0 <= k < i ==> !Text.OccursAt(header, BearerPrefix, k)
    ensures ExtractToken(Some(header)) == Some(header[..i] + header[i + |BearerPrefix|..])
  {
    Text.ReplaceFirstAt(header, BearerPrefix, "", i);
    assert header[..i] + "" + header[i + |BearerPrefix|..] == header[..i] + header[i + |BearerPrefix|..];
  }

  /** No header, or a bare 'Bearer ', leaves no usable token. */
  lemma NoUsableToken()
    ensures !Truthy(ExtractToken(None))
    ensures ExtractToken(Some(BearerPrefix)) == Some("")
  {
    ExtractFromBearerHeader("");
    assert BearerPrefix + "" == BearerPrefix;
  }

  // ---------------------------------------------------------------------------
  // authenticate

  /** The outcome of `authenticate`: the request goes on with a user and a token,
      or it is rejected with an error message. */
  datatype AuthResult = Authenticated(user: User, token: string) | Rejected(message: string)

  /** `err.message || 'Authentication failed'`. */
  function ErrorMessage(message: string): (text: string)
    ensures text != ""
    ensures message != "" ==> text == message
    ensures message == "" ==> text == AuthenticationFailed
  {
    if message == "" then AuthenticationFailed else message
  }

  /** The failure ladder of `authenticate`, step by step. */
  function Authentication(header: Option<string>, verify: string -> Verification,
                          findById: Option<string> -> Lookup): AuthResult
  {
    var token := ExtractToken(header);
    if !Truthy(token) then Rejected(AuthenticationRequired)
    else match verify(token.value)
      case VerifyError(message) => Rejected(ErrorMessage(message))
      case Decoded(userId) =>
        match findById(userId)
        case LookupError(message) => Rejected(ErrorMessage(message))
        case NotFound => Rejected(UserNotFound)
        case Found(user) => Authenticated(user, token.value)
  }

  /** A request gets through iff its header yields a usable token that verifies
      and whose user is found; it then carries that user and that token. */
  lemma AuthenticatedIff(header: Option<string>, verify: string -> Verification,
                         findById: Option<string> -> Lookup, user: User, token: string)
    ensures Authentication(header, verify, findById) == Authenticated(user, token) <==>
      && ExtractToken(header) == Some(token) && token != ""
      && verify(token).Decoded?
      && findById(verify(token).userId) == Found(user)
  {
  }

  /** Without a usable token the request is rejected with 'Authentication required',
      before the token is verified or a user looked up. */
  lemma MissingTokenRejected(header: Option<string>, verify: string -> Verification,
                             findById: Option<string> -> Lookup)
    requires header.None? || header == Some(BearerPrefix)
    ensures Authentication(header, verify, findById) == Rejected(AuthenticationRequired)
  {
    NoUsableToken();
  }

  /** A verified token whose user does not exist is rejected with 'User not found'. */
  lemma UnknownUserRejected(header: Option<string>, verify: string -> Verification,
                            findById: Option<string> -> Lookup)
    requires Truthy(ExtractToken(header))
    requires verify(ExtractToken(header).value).Decoded?
    requires findById(verify(ExtractToken(header).value).userId) == NotFound
    ensures Authentication(header, verify, findById) == Rejected(UserNotFound)
  {
  }

  /** Every rejection carries a non-empty message. */
  lemma RejectionHasMessage(header: Option<string>, verify: string -> Verification,
                            findById: Option<string> -> Lookup)
    ensures Authentication(header, verify, findById).Rejected? ==>
      Authentication(header, verify, findById).message != ""
  {
  }

  /** The request as the middleware sees it. */
  class Request {
    const authorization: Option<string>
    var user: Option<User>
    var token: Option<string>

    constructor (authorization: Option<string>)
      ensures this.authorization == authorization && user.None? && token.None?
    {
      this.authorization := authorization;
      user, token := None, None;
    }
  }

  /** The response as the middleware sees it: `body` is `None` until one is sent. */
  class Response {
    var status: nat
    var body: Option<ErrorBody>

    constructor ()
      ensures status == 200 && body.None?
    {
      status, body := 200, None;
    }

    /** `res.status(code).json({ success: false, error: message })`. */
    method SendError(code: nat, message: string)
      modifies this
      ensures status == code && body == Some(ErrorBody(false, message))
    {
      status := code;
      body := Some(ErrorBody(false, message));
    }
  }

  /** `authenticate(req, res, next)`; the result says whether `next` was called. */
  method Authenticate(req: Request, res: Response, verify: string -> Verification,
                      findById: Option<string> -> Lookup) returns (nextCalled: bool)
    modifies req, res
    ensures match Authentication(req.authorization, verify, findById)
      case Authenticated(user, token) =>
        && nextCalled && req.user == Some(user) && req.token == Some(token)
        && res.status == old(res.status) && res.body == old(res.body)
      case Rejected(message) =>
        && !nextCalled && res.status == 401 && res.body == Some(ErrorBody(false, message))
        && req.user == old(req.user) && req.token == old(req.token)
  {
    var token := ExtractToken(req.authorization);
    if !Truthy(token) {
      res.SendError(401, AuthenticationRequired);
      return false;
    }
    var decoded := verify(token.value);
    if decoded.VerifyError? {
      res.SendError(401, ErrorMessage(decoded.message));
      return false;
    }
    var found := findById(decoded.userId);
    if found.LookupError? {
      res.SendError(401, ErrorMessage(found.message));
      return false;
    }
    if found.NotFound? {
      res.SendError(401, UserNotFound);
      return false;
    }
    req.user := Some(found.user);
    req.token := token;
    nextCalled := true;
  }

  // ---------------------------------------------------------------------------
  // authorize

  /** The outcome of `authorize(...roles)` on one request. `Fault` is the TypeError
      thrown when no user was recorded on the request. */
  datatype Gate = Pass | Deny(status: nat, message: string) | Fault

  /** The role-membership gate. */
  function Authorization(roles: seq<string>, user: Option<User>): Gate
  {
    match user
    case None => Fault
    case Some(u) => if u.role in roles then Pass else Deny(403, UnauthorizedAccess)
  }

  /** An authenticated user passes iff their role is listed; otherwise the answer
      is 403 'Unauthorized access'. */
  lemma AuthorizationIff(roles: seq<string>, user: User)
    ensures Authorization(roles, Some(user)) == Pass <==> user.role in roles
    ensures Authorization(roles, Some(user)) != Pass ==>
      Authorization(roles, Some(user)) == Deny(403, UnauthorizedAccess)
  {
  }

  /** `authorize()` with no roles rejects every user. */
  lemma EmptyRolesRejectAll(user: User)
    ensures Authorization([], Some(user)) == Deny(403, UnauthorizedAccess)
  {
  }

  /** The middleware `authorize(...roles)` returns, applied to a request; `Pass`
      means `next` was called, and only a `Deny` sends a response. */
  method Authorize(roles: seq<string>, req: Request, res: Response) returns (gate: Gate)
    modifies res
    ensures gate == Authorization(roles, req.user)
    ensures gate.Deny? ==> res.status == 403 && res.body == Some(ErrorBody(false, UnauthorizedAccess))
    ensures !gate.Deny? ==> res.status == old(res.status) && res.body == old(res.body)
  {
    if req.user.None? {
      return Fault;
    }
    if req.user.value.role !in roles {
      res.SendError(403, UnauthorizedAccess);
      return Deny(403, UnauthorizedAccess);
    }
    gate := Pass;
  }
}
