/** The caller-authentication dependency of the aggregator's root route:
    a bearer credential, checked by the identity provider's verifier. */
module Auth {
  import opened Outcomes

  /** What the identity provider's verifier did with a token: decoded it to
      its claims, or raised with a message. */
  datatype Verification<C> = Verified(claims: C) | Refused(message: string)

  /** The dependency's outcome: the decoded claims plus the response headers
      it sets, or an HTTP error that ends the request. */
  datatype Gate<C> =
    | Admitted(claims: C, headers: seq<(string, string)>)
    | Unauthorized(status: nat, detail: string, headers: seq<(string, string)>)

  const Status401: nat := 401
  const Challenge: string := "WWW-Authenticate"
  const AuthRequired: string := "Bearer realm=\"auth_required\""
  const InvalidToken: string := "Bearer error=\"invalid_token\""
  const MissingDetail: string := "Bearer authentication is needed"
  const InvalidDetailPrefix: string := "Invalid authentication from Firebase. "

  /** Admits the caller exactly when a bearer credential is present and the
      verifier accepts it, returning the verifier's claims; otherwise 401,
      with a realm challenge when the credential is missing and an
      `invalid_token` challenge carrying the verifier's message when it was
      refused. Every outcome carries exactly one challenge header. */
  function GetUserToken<C>(credential: Option<string>, verify: string -> Verification<C>): (g: Gate<C>)
    ensures g.Admitted? <==> credential.Some? && verify(credential.value).Verified?
    ensures g.Admitted? ==> g.claims == verify(credential.value).claims
    ensures g.Unauthorized? ==> g.status == Status401
    ensures |g.headers| == 1 && g.headers[0].0 == Challenge
    ensures g.headers[0].1 == InvalidToken <==> credential.Some? && verify(credential.value).Refused?
    ensures g.headers[0].1 != InvalidToken ==> g.headers[0].1 == AuthRequired
    ensures credential.None? ==> g.Unauthorized? && g.detail == MissingDetail
    ensures credential.Some? && verify(credential.value).Refused? ==>
              g.Unauthorized? && g.detail == InvalidDetailPrefix + verify(credential.value).message
  {
    match credential
    case None =>
      Unauthorized(Status401, MissingDetail, [(Challenge, AuthRequired)])
    case Some(token) =>
      match verify(token)
      case Refused(message) =>
        Unauthorized(Status401, InvalidDetailPrefix + message, [(Challenge, InvalidToken)])
      case Verified(claims) =>
        Admitted(claims, [(Challenge, AuthRequired)])
  }

  /** The two rejections are told apart by their challenge header alone. */
  lemma RejectionsDistinguishable<C>(c1: Option<string>, c2: Option<string>, verify: string -> Verification<C>)
    requires GetUserToken(c1, verify).Unauthorized? && GetUserToken(c2, verify).Unauthorized?
    requires GetUserToken(c1, verify).headers == GetUserToken(c2, verify).headers
    ensures c1.None? <==> c2.None?
  {
  }
}
