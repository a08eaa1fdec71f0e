/**
 * `AuthDelegate`: the URLSession delegate that answers TLS
 * client-certificate challenges with the identity it was built with.
 * It only reads that identity; its one effect is a single call of the
 * completion handler, which the model gives as the function's result.
 */
module Auth {
  import opened Wrappers

  const CLIENT_CERTIFICATE_METHOD := "NSURLAuthenticationMethodClientCertificate"

  /** The parts of a `URLAuthenticationChallenge` the delegate looks at. */
  datatype Challenge = Challenge(authenticationMethod: string, previousFailureCount: nat)

  /** A `SecIdentity`: a certificate and its private key, opaque here. */
  datatype Identity = Identity(handle: nat)

  datatype Persistence = NoPersistence | ForSession | Permanent | Synchronizable

  /** `URLCredential(identity:certificates:persistence:)`, always built without intermediate certificates. */
  datatype Credential = ClientCredential(identity: Identity, persistence: Persistence)

  datatype Disposition =
    | UseCredential
    | PerformDefaultHandling
    | CancelAuthenticationChallenge
    | RejectProtectionSpace

  datatype AuthDelegate = AuthDelegate(identity: Option<Identity>)

  /** Whether a challenge is the one case the delegate answers itself. */
  predicate Answers(d: AuthDelegate, c: Challenge) {
    && c.authenticationMethod == CLIENT_CERTIFICATE_METHOD
    && c.previousFailureCount == 0
    && d.identity.Some?
  }

  /** The arguments `urlSession(_:didReceive:completionHandler:)` passes to its completion handler. */
  function HandleChallenge(d: AuthDelegate, c: Challenge): (r: (Disposition, Option<Credential>))
    ensures r.0 == UseCredential <==> Answers(d, c)
    ensures Answers(d, c) ==> r.1 == Some(ClientCredential(d.identity.value, ForSession))
    ensures !Answers(d, c) ==> r == (PerformDefaultHandling, None)
  {
    if c.authenticationMethod != CLIENT_CERTIFICATE_METHOD then (PerformDefaultHandling, None)
    else if c.previousFailureCount != 0 then (PerformDefaultHandling, None)
    else
      match d.identity
      case None => (PerformDefaultHandling, None)
      case Some(identity) => (UseCredential, Some(ClientCredential(identity, ForSession)))
  }

  /** A credential goes with the credential disposition, exactly, and never outlives the session. */
  lemma CredentialOnlyWhenUsed(d: AuthDelegate, c: Challenge)
    ensures var (disposition, credential) := HandleChallenge(d, c);
            && (credential.Some? <==> disposition == UseCredential)
            && (credential.Some? ==> credential.value.persistence == ForSession
                                     && Some(credential.value.identity) == d.identity)
  {
  }

  /**
   * A challenge that has already failed is left to default handling,
   * whatever identity is configured, so a rejected certificate is not
   * offered again and again.
   */
  lemma RetryIsNeverAnswered(d: AuthDelegate, c: Challenge)
    requires c.previousFailureCount > 0
    ensures HandleChallenge(d, c) == (PerformDefaultHandling, None)
  {
  }

  /** Only client-certificate challenges depend on the identity: every other method gets the same answer. */
  lemma OtherMethodsIgnoreIdentity(d1: AuthDelegate, d2: AuthDelegate, c: Challenge)
    requires c.authenticationMethod != CLIENT_CERTIFICATE_METHOD
    ensures HandleChallenge(d1, c) == HandleChallenge(d2, c) == (PerformDefaultHandling, None)
  {
  }

  /**
   * How many of the attempts 0, 1, ..., n - 1 of one handshake the
   * delegate answers with its identity: only the first attempt can be
   * answered, since every retry carries a previous failure.
   */
  function Offers(d: AuthDelegate, authMethod: string, n: nat): (k: nat)
    ensures k == if n > 0 && Answers(d, Challenge(authMethod, 0)) then 1 else 0
  {
    if n == 0 then 0
    else Offers(d, authMethod, n - 1) + (if HandleChallenge(d, Challenge(authMethod, n - 1)).0 == UseCredential then 1 else 0)
  }

  /**
   * However often one handshake is retried, the identity is offered at
   * most once, and exactly once when it is a client-certificate handshake
   * and an identity is configured.
   */
  lemma OfferedAtMostOnce(d: AuthDelegate, authMethod: string, n: nat)
    requires n > 0
    ensures Offers(d, authMethod, n) == if authMethod == CLIENT_CERTIFICATE_METHOD && d.identity.Some? then 1 else 0
  {
  }
}
