/**
 * The bearer-token middleware: `authenticate` reads the token after the
 * `Bearer ` prefix of the Authorization header (the scheme of section 2.1 of
 * RFC 6750), verifies it, and stores the claimed identity on the request;
 * `authorize(...roles)` admits a request whose user has one of the roles.
 * Token verification (a JWT signature check with the server secret) is the
 * parameter `verify`.
 */
module Auth {
  import opened Wrappers
  import opened Strings

  /** The claims of a verified token. */
  datatype Claims = Claims(id: string, email: string, role: string)

  /** `req.user`. */
  datatype User = User(id: string, email: string, role: string)

  const BearerPrefix := "Bearer "
  const NoTokenMessage := "No token provided"
  const InvalidTokenMessage := "Invalid token"
  const ForbiddenMessage := "Insufficient permissions"

  /** The prefix check, then `authHeader.substring(7)`. */
  function ExtractToken(header: Option<string>): (r: Option<string>)
    ensures r.Some? <==> header.Some? && StartsWith(header.value, BearerPrefix)
    ensures r.Some? ==> header.value == BearerPrefix + r.value
  {
    if header.Some? && StartsWith(header.value, BearerPrefix) then
      assert header.value == header.value[..7] + header.value[7..];
      Some(header.value[7..])
    else None
  }

  /** What `authenticate` decides about a header: the user it stores, or the 401 message. */
  datatype AuthResult = Accepted(user: User) | Rejected(message: string)

  function UserOf(c: Claims): User
  {
    User(c.id, c.email, c.role)
  }

  function Authenticated(header: Option<string>, verify: string -> Option<Claims>): (r: AuthResult)
    ensures r.Accepted? <==> ExtractToken(header).Some? && verify(ExtractToken(header).value).Some?
    ensures ExtractToken(header).None? ==> r == Rejected(NoTokenMessage)
  {
    match ExtractToken(header)
    case None => Rejected(NoTokenMessage)
    case Some(token) =>
      match verify(token)
      case None => Rejected(InvalidTokenMessage)
      case Some(claims) => Accepted(UserOf(claims))
  }

  /** The role of the user a header authenticates, if it does. */
  function RoleOf(header: Option<string>, verify: string -> Option<Claims>): Option<string>
  {
    match Authenticated(header, verify)
    case Accepted(u) => Some(u.role)
    case Rejected(_) => None
  }

  /** `authorize(...roles)`: a user must be present and have one of the roles. */
  predicate Permits(roles: seq<string>, user: Option<User>)
  {
    user.Some? && user.value.role in roles
  }

  /** With no roles listed, `authorize()` refuses everyone. */
  lemma NoRolesPermitNoOne(user: Option<User>)
    ensures !Permits([], user)
  {
  }

  /** The request object the middleware reads the header from and writes the user to. */
  class AuthRequest {
    const authorization: Option<string>
    var user: Option<User>

    constructor (authorization: Option<string>)
      ensures this.authorization == authorization && user.None?
    {
      this.authorization := authorization;
      user := None;
    }
  }

  /** Whether the middleware calls `next()` or answers with a status and message. */
  datatype Verdict = Next | Deny(status: nat, message: string)

  /**
   * `authenticate`: a missing header, or one without the case-sensitive
   * `Bearer ` prefix, is a 401 "No token provided"; a token `verify` refuses is a
   * 401 "Invalid token"; in both cases `next` is not called and `req.user` is left
   * alone. Otherwise `req.user` becomes exactly the claimed id, email and role and
   * `next` is called.
   */
  method Authenticate(req: AuthRequest, verify: string -> Option<Claims>) returns (v: Verdict)
    modifies req
    ensures ExtractToken(req.authorization).None? ==>
      v == Deny(401, NoTokenMessage) && req.user == old(req.user)
    ensures ExtractToken(req.authorization).Some? && verify(ExtractToken(req.authorization).value).None? ==>
      v == Deny(401, InvalidTokenMessage) && req.user == old(req.user)
    ensures ExtractToken(req.authorization).Some? && verify(ExtractToken(req.authorization).value).Some? ==>
      var c := verify(ExtractToken(req.authorization).value).value;
      v == Next && req.user == Some(User(c.id, c.email, c.role))
  {
    var header := req.authorization;
    if header.None? || !StartsWith(header.value, BearerPrefix) {
      return Deny(401, NoTokenMessage);
    }
    var token := header.value[7..];
    var decoded := verify(token);
    if decoded.None? {
      return Deny(401, InvalidTokenMessage);
    }
    req.user := Some(User(decoded.value.id, decoded.value.email, decoded.value.role));
    v := Next;
  }

  /** `authorize(...roles)` on a request: 403 unless the stored user has one of the roles. */
  method Authorize(req: AuthRequest, roles: seq<string>) returns (v: Verdict)
    ensures v == Next <==> req.user.Some? && req.user.value.role in roles
    ensures v != Next ==> v == Deny(403, ForbiddenMessage)
  {
    var user := req.user;
    if user.None? || user.value.role !in roles {
      return Deny(403, ForbiddenMessage);
    }
    v := Next;
  }
}
