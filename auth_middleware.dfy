/**
 * The authentication gate in front of the private profile routes: read the
 * `x-auth-token` header, have the token verifier decode it, and either
 * answer 401 or attach the decoded identity to the request and hand over to
 * the next handler.
 */
module AuthMiddleware {
  import opened Wrappers
  import opened Http

  /** The header that carries the token; Node stores incoming header names in lower case. */
  const TokenHeader := "x-auth-token"
  const NoTokenMsg := "No token, authorisation denied"
  const InvalidTokenMsg := "Invalid token"

  /** The decoded token: its payload's `user` member, which the payload may lack. */
  datatype TokenPayload = TokenPayload(user: Option<Identity>)

  class Request {
    /** The incoming headers, keyed by lower-case name. */
    const headers: map<string, string>
    /** `req.user` */
    var user: Option<Identity>

    constructor (headers: map<string, string>)
      ensures this.headers == headers && user == None
    {
      this.headers := headers;
      user := None;
    }

    /** `req.header(name)` for a lower-case name. */
    function Header(name: string): Option<string> {
      Lookup(headers, name)
    }
  }

  class Response {
    /** The response sent so far, if any. */
    var sent: Option<Reply>

    constructor ()
      ensures sent == None
    {
      sent := None;
    }

    /** `res.status(status).json(content)` */
    method Send(status: nat, content: Content)
      modifies this
      ensures sent == Some(Reply(status, content))
    {
      sent := Some(Reply(status, content));
    }
  }

  /** The `next` callback, observed through the number of times it has been called. */
  class Next {
    var calls: nat

    constructor ()
      ensures calls == 0
    {
      calls := 0;
    }

    method Call()
      modifies this
      ensures calls == old(calls) + 1
    {
      calls := calls + 1;
    }
  }

  /**
   * `jwt.verify(token, JWT_SECRET)` as an oracle: `decode` is what the
   * library makes of a token under the configured secret (`None` when it
   * throws), and `consulted` counts the calls.
   */
  class TokenVerifier {
    const decode: string -> Option<TokenPayload>
    var consulted: nat

    constructor (decode: string -> Option<TokenPayload>)
      ensures this.decode == decode && consulted == 0
    {
      this.decode := decode;
      consulted := 0;
    }

    method Verify(token: string) returns (r: Option<TokenPayload>)
      modifies this`consulted
      ensures r == decode(token) && consulted == old(consulted) + 1
    {
      r := decode(token);
      consulted := consulted + 1;
    }
  }

  /** The two terminal outcomes of the gate. */
  datatype Outcome = Reject(reply: Reply) | Proceed(user: Option<Identity>)

  /** What the gate does with the token header value it finds. */
  function Gate(token: Option<string>, decode: string -> Option<TokenPayload>): (o: Outcome)
    ensures o.Reject? ==> o.reply.status == 401
    ensures o.Proceed? <==> token.Some? && token.value != "" && decode(token.value).Some?
    ensures o.Proceed? ==> o.user == decode(token.value).value.user
    ensures (token.None? || token.value == "") ==> o == Reject(Reply(401, Msg(NoTokenMsg)))
    ensures (token.Some? && token.value != "" && decode(token.value).None?) ==>
      o == Reject(Reply(401, Msg(InvalidTokenMsg)))
  {
    if token.None? || token.value == "" then Reject(Reply(401, Msg(NoTokenMsg)))
    else
      match decode(token.value)
      case None => Reject(Reply(401, Msg(InvalidTokenMsg)))
      case Some(payload) => Proceed(payload.user)
  }

  /** Without a token the outcome does not depend on the verifier at all. */
  lemma NoTokenIgnoresVerifier(token: Option<string>, d1: string -> Option<TokenPayload>, d2: string -> Option<TokenPayload>)
    requires token.None? || token.value == ""
    ensures Gate(token, d1) == Gate(token, d2)
  {
  }

  /**
   * The middleware. Exactly one of two things happens: a 401 reply is sent
   * and `next` is not called, or `req.user` is set and `next` is called
   * once with no reply sent. The verifier is consulted only when a
   * non-empty token is present.
   */
  method Authenticate(req: Request, res: Response, next: Next, verifier: TokenVerifier)
    modifies req`user, res, next, verifier`consulted
    ensures var token := req.Header(TokenHeader);
      verifier.consulted == old(verifier.consulted) + (if token.Some? && token.value != "" then 1 else 0)
    ensures match Gate(req.Header(TokenHeader), verifier.decode)
      case Reject(reply) =>
        res.sent == Some(reply) && next.calls == old(next.calls) && req.user == old(req.user)
      case Proceed(user) =>
        req.user == user && next.calls == old(next.calls) + 1 && res.sent == old(res.sent)
  {
    var token := req.Header(TokenHeader);
    if token.None? || token.value == "" {
      res.Send(401, Msg(NoTokenMsg));
      return;
    }
    var decoded := verifier.Verify(token.value);
    if decoded.None? {
      res.Send(401, Msg(InvalidTokenMsg));
      return;
    }
    req.user := decoded.value.user;
    next.Call();
  }
}
