/**
 * The authentication middleware in front of the dashboard API: the bearer
 * token is the second space-separated piece of the `Authorization` header,
 * and the request proceeds only when the token verifies to an object that
 * carries a `userId`. Token verification (signature, expiry, the secret)
 * is the `verify` parameter.
 */
module Auth {
  import opened Wrappers
  import opened Text

  /** What the JSON Web Token library decodes a verified token to. */
  datatype Payload =
    | ObjectPayload(keys: set<string>)
    | TextPayload(text: string)
    | NullPayload

  /** The library's verdict: the error's `name`, or the decoded payload. */
  datatype Verification = VerifyError(name: string) | Verified(payload: Payload)

  datatype Outcome =
    | Rejected(status: int, error: string)
    | Authenticated(user: set<string>)

  const NoToken: string := "Unauthorized: No token provided."
  const Expired: string := "Forbidden: Token has expired."
  const InvalidToken: string := "Forbidden: Invalid token."
  const Malformed: string := "Forbidden: Malformed token payload."

  /** `authHeader?.split(' ')[1]`, with JavaScript's `undefined` and the empty string both as `None`. */
  function Token(authHeader: Option<string>): (t: Option<string>)
    ensures t.Some? ==> t.value != "" && ' ' !in t.value
    ensures authHeader.None? ==> t.None?
    ensures authHeader.Some? && ' ' !in authHeader.value ==> t.None?
  {
    if authHeader.None? then None
    else
      var pieces := Split(authHeader.value, ' ');
      if |pieces| >= 2 && pieces[1] != "" then Some(pieces[1]) else None
  }

  /** `authenticateToken`: 401 without a token, 403 for a failed verification or a payload without `userId`. */
  function Authenticate(authHeader: Option<string>, verify: string -> Verification): (o: Outcome)
    ensures Token(authHeader).None? <==> o == Rejected(401, NoToken)
    ensures o.Authenticated? <==>
              Token(authHeader).Some?
              && verify(Token(authHeader).value).Verified?
              && verify(Token(authHeader).value).payload.ObjectPayload?
              && "userId" in verify(Token(authHeader).value).payload.keys
    ensures o.Authenticated? ==> "userId" in o.user
    ensures o.Rejected? ==> o.status in {401, 403}
    ensures o.Rejected? && o.status == 403 ==>
              var v := verify(Token(authHeader).value);
              (o.error == Expired <==> v == VerifyError("TokenExpiredError"))
              && (o.error == InvalidToken <==> v.VerifyError? && v.name != "TokenExpiredError")
              && (o.error == Malformed <==> v.Verified?)
  {
    match Token(authHeader)
    case None => Rejected(401, NoToken)
    case Some(token) =>
      match verify(token)
      case VerifyError(name) =>
        if name == "TokenExpiredError" then Rejected(403, Expired) else Rejected(403, InvalidToken)
      case Verified(payload) =>
        if payload.ObjectPayload? && "userId" in payload.keys then Authenticated(payload.keys)
        else Rejected(403, Malformed)
  }

  /**
   * A header made of the space-free words `ws` hands verification exactly
   * its second word, whatever the first word (the scheme is never
   * inspected) and however many words follow; with fewer than two words,
   * or an empty second word (two spaces in a row), there is no token.
   * Every header is such a join: `JoinSplit` rebuilds it from its pieces.
   */
  lemma {:induction false} TokenIsSecondWord(ws: seq<string>)
    requires |ws| >= 1
    requires forall i :: 0 <= i < |ws| ==> ' ' !in ws[i]
    ensures Token(Some(Join(ws, ' '))) == (if |ws| >= 2 && ws[1] != "" then Some(ws[1]) else None)
  {
    SplitJoin(ws, ' ');
  }
}
