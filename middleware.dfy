/** The authentication middleware: `verifyToken` admits a request only with a
    valid "Bearer" token of a user that still exists; `optionalAuth` attaches
    the user when it can and always lets the request through. Token decoding
    is supplied as a function (`None` for a token that does not verify). */
module AuthMiddleware {
  import opened Wrappers
  import opened Text
  import Auth

  /** `req.user`. */
  datatype AuthUser = AuthUser(id: Auth.UserId, email: string)

  /** A 401 response sent by the middleware. */
  datatype Denial = Denial(status: int, message: string)

  datatype Decision = Admit(user: AuthUser) | Deny(denial: Denial)

  const Prefix := "Bearer "

  /** The token of an `Authorization` header: the header without its
      "Bearer " prefix, or `None` when the header is missing or does not
      start with that prefix. */
  function BearerToken(header: Option<string>): (r: Option<string>)
    ensures r.Some? <==> header.Some? && StartsWith(header.value, "Bearer ")
    ensures r.Some? ==> "Bearer " + r.value == header.value
  {
    if header.None? || header.value == "" || !StartsWith(header.value, Prefix) then None
    else Some(header.value[|Prefix|..])
  }

  /** The outcome `verifyToken` picks, in the order of its checks. */
  function Authenticate(header: Option<string>, decode: string -> Option<Auth.Claims>,
                        users: seq<Auth.User>): (r: Decision)
    ensures BearerToken(header).None? ==> r == Deny(Denial(401, "Access denied. No token provided."))
    ensures BearerToken(header).Some? && decode(BearerToken(header).value).None? ==>
      r == Deny(Denial(401, "Invalid or expired token"))
    ensures BearerToken(header).Some? && decode(BearerToken(header).value).Some? ==>
      var c := decode(BearerToken(header).value).value;
      && (Auth.FindById(users, c.id).None? ==> r == Deny(Denial(401, "User no longer exists")))
      && (Auth.FindById(users, c.id).Some? ==> r == Admit(AuthUser(c.id, c.email)))
  {
    match BearerToken(header)
    case None => Deny(Denial(401, "Access denied. No token provided."))
    case Some(token) =>
      match decode(token)
      case None => Deny(Denial(401, "Invalid or expired token"))
      case Some(decoded) =>
        if Auth.FindById(users, decoded.id).None? then Deny(Denial(401, "User no longer exists"))
        else Admit(AuthUser(decoded.id, decoded.email))
  }

  /** A request is admitted exactly when its header carries a token that
      decodes to the id of a stored user; the user attached is the decoded id
      and email. */
  lemma AdmitIff(header: Option<string>, decode: string -> Option<Auth.Claims>, users: seq<Auth.User>)
    ensures Authenticate(header, decode, users).Admit? <==>
      exists token :: header == Some("Bearer " + token) && decode(token).Some?
        && exists i :: 0 <= i < |users| && users[i].id == decode(token).value.id
    ensures Authenticate(header, decode, users).Admit? ==>
      var token := header.value[7..];
      "Bearer " + token == header.value
      && Authenticate(header, decode, users).user
         == AuthUser(decode(token).value.id, decode(token).value.email)
  {
    var t := BearerToken(header);
    if t.Some? {
      assert header == Some("Bearer " + t.value);
    }
    forall token | header == Some("Bearer " + token)
      ensures BearerToken(header) == Some(token)
    {
      assert StartsWith(header.value, "Bearer ");
      assert header.value[7..] == token;
    }
  }

  /** The user `optionalAuth` attaches: the decoded token's, whenever the
      header has the prefix and the token decodes, whether or not the user
      still exists. */
  function OptionalUser(header: Option<string>, decode: string -> Option<Auth.Claims>): (r: Option<AuthUser>)
    ensures r.Some? <==> BearerToken(header).Some? && decode(BearerToken(header).value).Some?
    ensures r.Some? ==> var c := decode(BearerToken(header).value).value; r.value == AuthUser(c.id, c.email)
  {
    match BearerToken(header)
    case None => None
    case Some(token) =>
      match decode(token)
      case None => None
      case Some(decoded) => Some(AuthUser(decoded.id, decoded.email))
  }

  /** A user admitted by `verifyToken` is the one `optionalAuth` would
      attach. */
  lemma AdmittedIsOptionalUser(header: Option<string>, decode: string -> Option<Auth.Claims>, users: seq<Auth.User>)
    requires Authenticate(header, decode, users).Admit?
    ensures OptionalUser(header, decode) == Some(Authenticate(header, decode, users).user)
  {
  }

  /** One request passing through the middleware: `req.user`, the response
      sent (if any) and how many times `next` was called. */
  class Exchange {
    var user: Option<AuthUser>
    var response: Option<Denial>
    var nextCalls: nat

    constructor ()
      ensures user == None && response == None && nextCalls == 0
    {
      user := None;
      response := None;
      nextCalls := 0;
    }

    method CallNext()
      modifies this`nextCalls
      ensures nextCalls == old(nextCalls) + 1
    {
      nextCalls := nextCalls + 1;
    }

    /** `verifyToken`. */
    method VerifyToken(header: Option<string>, decode: string -> Option<Auth.Claims>, users: seq<Auth.User>)
      modifies this
      ensures Authenticate(header, decode, users).Admit? ==>
        && user == Some(Authenticate(header, decode, users).user)
        && nextCalls == old(nextCalls) + 1
        && response == old(response)
      ensures Authenticate(header, decode, users).Deny? ==>
        && response == Some(Authenticate(header, decode, users).denial)
        && nextCalls == old(nextCalls)
        && user == old(user)
    {
      var token := BearerToken(header);
      if token.None? {
        response := Some(Denial(401, "Access denied. No token provided."));
        return;
      }
      var decoded := decode(token.value);
      if decoded.None? {
        response := Some(Denial(401, "Invalid or expired token"));
        return;
      }
      var found := Auth.FindById(users, decoded.value.id);
      if found.None? {
        response := Some(Denial(401, "User no longer exists"));
        return;
      }
      user := Some(AuthUser(decoded.value.id, decoded.value.email));
      CallNext();
    }

    /** `optionalAuth`. */
    method OptionalAuth(header: Option<string>, decode: string -> Option<Auth.Claims>)
      modifies this
      ensures nextCalls == old(nextCalls) + 1
      ensures response == old(response)
      ensures user == if OptionalUser(header, decode).Some? then OptionalUser(header, decode) else old(user)
    {
      var token := BearerToken(header);
      if token.Some? {
        var decoded := decode(token.value);
        if decoded.Some? {
          user := Some(AuthUser(decoded.value.id, decoded.value.email));
        }
      }
      CallNext();
    }
  }
}
