/**
 * The bearer-header gate and the admin check of Middleware/authMiddleware.js.
 * Token verification (`jwt.verify` with the server secret) is a parameter: a
 * function from the token text to the decoded claims, `None` when it throws.
 */
module AuthMiddleware {
  import opened Wrappers
  import opened Strings

  /** The claims the server signs into a token: `{ id, email, role }`. */
  datatype Claims = Claims(id: string, email: string, role: string)

  /** A JSON error body `{ error }` with its HTTP status. */
  datatype Denial = Denial(status: nat, error: string)

  const BearerPrefix: string := "Bearer "
  const NoTokenMessage: string := "Access denied. No token provided."
  const BadTokenMessage: string := "Invalid or expired token"

  /** `authHeader.split(' ')[1]` of a header that starts with `Bearer `. */
  function BearerToken(header: string): (token: string)
    requires BearerPrefix <= header
    ensures ' ' !in token
  {
    SplitAfterBearer(header[|BearerPrefix|..]);
    assert header == BearerPrefix + header[|BearerPrefix|..];
    Split(header, ' ')[1]
  }

  lemma SplitAfterBearer(rest: string)
    ensures Split(BearerPrefix + rest, ' ') == ["Bearer"] + Split(rest, ' ')
  {
    assert BearerPrefix + rest == "Bearer" + (" " + rest);
    FirstIndexAfterFree("Bearer", ' ', " " + rest);
    assert (BearerPrefix + rest)[..6] == "Bearer";
    assert (BearerPrefix + rest)[7..] == rest;
  }

  /** The token is the first space-separated word after `Bearer `. */
  lemma TokenIsFirstWord(rest: string)
    ensures BearerToken(BearerPrefix + rest) == Split(rest, ' ')[0]
    ensures ' ' !in rest ==> BearerToken(BearerPrefix + rest) == rest
  {
    SplitAfterBearer(rest);
    assert (BearerPrefix + rest)[|BearerPrefix|..] == rest;
  }

  /** Whatever follows the next space is ignored. */
  lemma TokenBeforeSpace(word: string, more: string)
    requires ' ' !in word
    ensures BearerToken(BearerPrefix + word + " " + more) == word
  {
    var rest := word + " " + more;
    assert BearerPrefix + word + " " + more == BearerPrefix + rest;
    TokenIsFirstWord(rest);
    assert rest == word + (" " + more);
    FirstIndexAfterFree(word, ' ', " " + more);
    assert rest[..|word|] == word;
  }

  /** `Bearer a b` carries the token `a`; a double space carries the empty token. */
  lemma TokenExamples()
    ensures BearerToken("Bearer a b") == "a"
    ensures BearerToken("Bearer  x") == ""
  {
    TokenBeforeSpace("a", "b");
    assert BearerPrefix + "a" + " " + "b" == "Bearer a b";
    TokenBeforeSpace("", "x");
    assert BearerPrefix + "" + " " + "x" == "Bearer  x";
  }

  /** What `auth` decides: deny with a status, or let the request through with claims. */
  datatype Gate = Deny(denial: Denial) | Pass(user: Claims)

  /** `auth` as a decision: a missing, empty or non-`Bearer ` header is 401 with the
      no-token message; a token that does not verify is 401 with the bad-token message. */
  function Authenticate(header: Option<string>, verify: string -> Option<Claims>): (g: Gate)
    ensures g.Pass? <==> header.Some? && BearerPrefix <= header.value && verify(BearerToken(header.value)).Some?
    ensures g.Pass? ==> g.user == verify(BearerToken(header.value)).value
    ensures (header.None? || !(BearerPrefix <= header.value)) ==> g == Deny(Denial(401, NoTokenMessage))
    ensures header.Some? && BearerPrefix <= header.value && verify(BearerToken(header.value)).None? ==>
              g == Deny(Denial(401, BadTokenMessage))
  {
    if header.None? || !(BearerPrefix <= header.value) then Deny(Denial(401, NoTokenMessage))
    else match verify(BearerToken(header.value))
      case None => Deny(Denial(401, BadTokenMessage))
      case Some(claims) => Pass(claims)
  }

  /** The scheme is case-sensitive: `bearer x` is treated as no token at all. */
  lemma LowerCaseSchemeRefused(verify: string -> Option<Claims>)
    ensures Authenticate(Some("bearer x"), verify) == Deny(Denial(401, NoTokenMessage))
  {
    assert "bearer x"[0] != BearerPrefix[0];
  }

  /** The request as the middleware sees it: the user it attaches and how often
      it calls `next`. */
  class Request {
    var user: Option<Claims>
    var nextCalls: nat

    constructor ()
      ensures user.None? && nextCalls == 0
    {
      user := None;
      nextCalls := 0;
    }

    /** `auth(req, res, next)`: on success `req.user` is the decoded claims and
        `next` runs once; on a refusal nothing on the request changes. */
    method Auth(header: Option<string>, verify: string -> Option<Claims>) returns (denial: Option<Denial>)
      modifies this
      ensures match Authenticate(header, verify)
              case Pass(claims) => denial.None? && user == Some(claims) && nextCalls == old(nextCalls) + 1
              case Deny(d) => denial == Some(d) && user == old(user) && nextCalls == old(nextCalls)
    {
      if header.None? || !(BearerPrefix <= header.value) {
        return Some(Denial(401, NoTokenMessage));
      }
      var token := BearerToken(header.value);
      var decoded := verify(token);
      if decoded.None? {
        return Some(Denial(401, BadTokenMessage));
      }
      user := decoded;
      nextCalls := nextCalls + 1;
      denial := None;
    }

    /**
     * The chain `auth, admin` in front of a handler. `admin` reads the user that
     * `auth` has just attached, so it never meets a request without one: the
     * handler runs exactly for a verified token whose role is `admin`, a
     * non-admin token is refused with 403 after `auth` has attached its claims,
     * and every other request is refused by `auth` with 401 and left unchanged.
     */
    method AuthThenAdmin(header: Option<string>, verify: string -> Option<Claims>) returns (denial: Option<Denial>)
      modifies this
      ensures denial.None? <==> Authenticate(header, verify).Pass? && Authenticate(header, verify).user.role == "admin"
      ensures denial.None? ==> nextCalls == old(nextCalls) + 2
      ensures Authenticate(header, verify).Deny? ==>
                denial == Some(Authenticate(header, verify).denial) && denial.value.status == 401 &&
                user == old(user) && nextCalls == old(nextCalls)
      ensures Authenticate(header, verify).Pass? ==> user == Some(Authenticate(header, verify).user)
      ensures Authenticate(header, verify).Pass? && Authenticate(header, verify).user.role != "admin" ==>
                denial == Some(Denial(403, "Admin access required")) && nextCalls == old(nextCalls) + 1
    {
      denial := Auth(header, verify);
      if denial.Some? {
        return;
      }
      match Admin(user)
      case AdminThrows =>
        assert false;
      case AdminDeny(d) =>
        denial := Some(d);
      case AdminPass =>
        nextCalls := nextCalls + 1;
    }
  }

  /** What `admin` does. Reading `req.user.role` with no user attached throws. */
  datatype AdminGate = AdminDeny(denial: Denial) | AdminPass | AdminThrows

  function Admin(user: Option<Claims>): (g: AdminGate)
    ensures g.AdminPass? <==> user.Some? && user.value.role == "admin"
    ensures g.AdminDeny? <==> user.Some? && user.value.role != "admin"
    ensures g.AdminDeny? ==> g.denial == Denial(403, "Admin access required")
    ensures g.AdminThrows? <==> user.None?
  {
    match user
    case None => AdminThrows
    case Some(c) => if c.role != "admin" then AdminDeny(Denial(403, "Admin access required")) else AdminPass
  }
}
