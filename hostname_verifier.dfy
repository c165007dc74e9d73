/**
 * The peer-identity decision of `DefaultHostnameVerifier`: after a TLS handshake it
 * decides whether the hostname the client meant to reach matches the identity the
 * peer presented (the server-identity check of section 3.1 of RFC 2818).
 *
 * The name matching itself belongs to an injected `HostnameChecker`; here it is a
 * pair of uninterpreted total functions, so every property below holds for every
 * checker whatsoever.  Java exceptions become `Result`/`Outcome` values.
 */
module HostnameVerification {
  import opened Wrappers

  type Hostname = string

  /** An X.509 certificate, kept opaque (its encoded form); only the checker looks inside. */
  datatype X509Certificate = X509Certificate(encoded: seq<bv8>)

  /** `java.security.cert.Certificate`: an X.509 certificate or one of another type. */
  datatype Certificate =
    | X509(x509: X509Certificate)
    | OtherCertificate(certType: string, encoded: seq<bv8>)

  /** A Kerberos principal name such as `HTTP/host.example.com@REALM`. */
  datatype KerberosPrincipal = KerberosPrincipal(name: string)

  /** `java.security.Principal`: a Kerberos principal or any other kind. */
  datatype Principal =
    | Kerberos(kerberos: KerberosPrincipal)
    | OtherPrincipal(name: string)

  /** The transport's signal that the peer's identity is not established. */
  datatype SSLPeerUnverifiedException = SSLPeerUnverifiedException(message: string)

  /** The checker's signal that a certificate does not match the hostname. */
  datatype CertificateException = CertificateException(message: string)

  /**
   * The part of an `SSLSession` the verifier reads: the peer's certificates (leaf
   * first) and the peer's principal, each of which may instead raise "peer unverified".
   */
  datatype Session = Session(
    peerCertificates: Result<seq<Certificate>, SSLPeerUnverifiedException>,
    peerPrincipal: Result<Principal, SSLPeerUnverifiedException>)

  /**
   * The injected `HostnameChecker`.  `matchCertificate` is the `void` match that throws
   * `CertificateException` on a mismatch; `matchPrincipal` is the boolean match.
   */
  datatype HostnameChecker = HostnameChecker(
    matchCertificate: (Hostname, X509Certificate) -> Outcome<CertificateException>,
    matchPrincipal: (Hostname, KerberosPrincipal) -> bool)

  /**
   * A `HostnameVerifier`: either a `DefaultHostnameVerifier` with its checker and its
   * optional (possibly null) fallback, or some other implementation whose `verify` is
   * not visible and is taken as an arbitrary function of its arguments.
   */
  datatype Verifier =
    | DefaultHostnameVerifier(checker: HostnameChecker, extraHostnameVerifier: Option<Verifier>)
    | ForeignVerifier(verify: (Hostname, Session) -> bool)

  // ---------------------------------------------------------------------------
  // Reference definition: which identity a session offers, and whether it is accepted.
  // ---------------------------------------------------------------------------

  /** The identity the verifier relies on. */
  datatype PeerIdentity =
    | LeafCertificate(cert: X509Certificate)
    | KerberosIdentity(principal: KerberosPrincipal)

  /**
   * The identity a session offers for name matching: its leaf certificate when the
   * certificates are available at all (and only if that leaf is X.509); the Kerberos
   * principal only when the certificates themselves are unavailable.
   */
  function PresentedIdentity(session: Session): Option<PeerIdentity>
  {
    if session.peerCertificates.Success? then
      var certs := session.peerCertificates.value;
      if certs != [] && certs[0].X509? then Some(LeafCertificate(certs[0].x509)) else None
    else if session.peerPrincipal.Success? && session.peerPrincipal.value.Kerberos? then
      Some(KerberosIdentity(session.peerPrincipal.value.kerberos))
    else
      None
  }

  /** Whether the checker accepts an identity for the hostname. */
  predicate Accepts(checker: HostnameChecker, hostname: Hostname, id: PeerIdentity)
  {
    match id
    case LeafCertificate(cert) => checker.matchCertificate(hostname, cert).Pass?
    case KerberosIdentity(principal) => checker.matchPrincipal(hostname, principal)
  }

  // ---------------------------------------------------------------------------
  // DefaultHostnameVerifier.hostnameMatches and verify
  // ---------------------------------------------------------------------------

  /**
   * `hostnameMatches`: the nested try/catch of the source.  It holds exactly when the
   * session presents an identity and the checker accepts that identity.
   */
  function HostnameMatches(checker: HostnameChecker, hostname: Hostname, session: Session): (matches: bool)
    ensures var id := PresentedIdentity(session);
      matches <==> id.Some? && Accepts(checker, hostname, id.value)
  {
    match session.peerCertificates
    case Success(peerCertificates) =>
      if |peerCertificates| == 0 then
        false
      else if peerCertificates[0].X509? then
        match checker.matchCertificate(hostname, peerCertificates[0].x509)
        case Pass => true
        case Fail(_) => false
      else
        false
    case Failure(_) =>
      match session.peerPrincipal
      case Success(peerPrincipal) =>
        if peerPrincipal.Kerberos? then checker.matchPrincipal(hostname, peerPrincipal.kerberos) else false
      case Failure(_) => false
  }

  /**
   * `verify`: the own check first, the fallback (when not null) only if it fails.
   * Over the whole fallback chain this is first-accept-wins: it accepts exactly when
   * some link of the chain accepts, the first such link being the one that decides.
   */
  function Verify(verifier: Verifier, hostname: Hostname, session: Session): (verified: bool)
    ensures verified <==> FirstAccepting(Chain(verifier), hostname, session).Some?
    decreases verifier
  {
    match verifier
    case DefaultHostnameVerifier(checker, extra) =>
      if HostnameMatches(checker, hostname, session) then
        true
      else
        (match extra
         case None => false
         case Some(next) => Verify(next, hostname, session))
    case ForeignVerifier(verify) =>
      verify(hostname, session)
  }

  // ---------------------------------------------------------------------------
  // The four constructors
  // ---------------------------------------------------------------------------

  /**
   * `new DefaultHostnameVerifier()`.  `proxy` stands for `new ProxyHostnameChecker()`,
   * the platform-backed checker, whose behaviour is not part of this model.
   */
  function NewDefault(proxy: HostnameChecker): (v: Verifier)
    ensures v.DefaultHostnameVerifier? && v.extraHostnameVerifier.None?
    ensures forall h, s :: Verify(v, h, s) == HostnameMatches(proxy, h, s)
  {
    DefaultHostnameVerifier(proxy, None)
  }

  /**
   * `new DefaultHostnameVerifier(checker)`.  Since the platform checker of `NewDefault`
   * is a parameter here, the two coincide in the model; they differ in the source only
   * in where the checker comes from, so both are kept, one per Java constructor.
   */
  function NewWithChecker(checker: HostnameChecker): (v: Verifier)
    ensures v.DefaultHostnameVerifier? && v.extraHostnameVerifier.None?
    ensures forall h, s :: Verify(v, h, s) == HostnameMatches(checker, h, s)
  {
    DefaultHostnameVerifier(checker, None)
  }

  /** `new DefaultHostnameVerifier(extraHostnameVerifier)`, with `proxy` as for `NewDefault`. */
  function NewWithFallback(proxy: HostnameChecker, extraHostnameVerifier: Option<Verifier>): (v: Verifier)
    ensures v.DefaultHostnameVerifier?
    ensures forall h, s ::
      Verify(v, h, s) == (HostnameMatches(proxy, h, s) || (extraHostnameVerifier.Some? && Verify(extraHostnameVerifier.value, h, s)))
  {
    DefaultHostnameVerifier(proxy, extraHostnameVerifier)
  }

  /**
   * `new DefaultHostnameVerifier(checker, extraHostnameVerifier)`.  It coincides in the
   * model with `NewWithFallback`, for the reason given at `NewWithChecker`.
   */
  function NewWithCheckerAndFallback(checker: HostnameChecker, extraHostnameVerifier: Option<Verifier>): (v: Verifier)
    ensures v.DefaultHostnameVerifier?
    ensures forall h, s ::
      Verify(v, h, s) == (HostnameMatches(checker, h, s) || (extraHostnameVerifier.Some? && Verify(extraHostnameVerifier.value, h, s)))
  {
    DefaultHostnameVerifier(checker, extraHostnameVerifier)
  }

  // ---------------------------------------------------------------------------
  // The fallback chain as a list, and first-accept-wins over it
  // ---------------------------------------------------------------------------

  /** One link of a fallback chain: a default verifier's own check, or a foreign verifier. */
  datatype Link =
    | Own(checker: HostnameChecker)
    | Foreign(verify: (Hostname, Session) -> bool)

  /** Whether one link, taken alone, accepts. */
  predicate LinkAccepts(link: Link, hostname: Hostname, session: Session)
  {
    match link
    case Own(checker) => HostnameMatches(checker, hostname, session)
    case Foreign(verify) => verify(hostname, session)
  }

  /** The chain of checks a verifier walks, in construction order; it is finite and never empty. */
  function Chain(verifier: Verifier): (links: seq<Link>)
    ensures |links| >= 1
    ensures verifier.ForeignVerifier? ==> links == [Foreign(verifier.verify)]
    ensures verifier.DefaultHostnameVerifier? ==> links[0] == Own(verifier.checker)
    ensures verifier.DefaultHostnameVerifier? && verifier.extraHostnameVerifier.None? ==> |links| == 1
    ensures verifier.DefaultHostnameVerifier? && verifier.extraHostnameVerifier.Some? ==>
      links[1..] == Chain(verifier.extraHostnameVerifier.value)
    decreases verifier
  {
    match verifier
    case DefaultHostnameVerifier(checker, None) => [Own(checker)]
    case DefaultHostnameVerifier(checker, Some(next)) => [Own(checker)] + Chain(next)
    case ForeignVerifier(verify) => [Foreign(verify)]
  }

  /** The position of the first link that accepts, if any: a linear search specification. */
  function FirstAccepting(links: seq<Link>, hostname: Hostname, session: Session): (k: Option<nat>)
    ensures k.Some? ==> k.value < |links| && LinkAccepts(links[k.value], hostname, session)
    ensures k.Some? ==> forall j :: 0 <= j < k.value ==> !LinkAccepts(links[j], hostname, session)
    ensures k.None? ==> forall j :: 0 <= j < |links| ==> !LinkAccepts(links[j], hostname, session)
  {
    if |links| == 0 then
      None
    else if LinkAccepts(links[0], hostname, session) then
      Some(0)
    else
      match FirstAccepting(links[1..], hostname, session)
      case None => None
      case Some(k) => Some(k + 1)
  }

  /** `verify` over the whole chain accepts exactly when some link of the chain accepts. */
  lemma VerifyAcceptsIffSomeLinkAccepts(verifier: Verifier, hostname: Hostname, session: Session)
    ensures Verify(verifier, hostname, session) <==>
      exists i :: 0 <= i < |Chain(verifier)| && LinkAccepts(Chain(verifier)[i], hostname, session)
  {
  }

  // ---------------------------------------------------------------------------
  // The decision tree of hostnameMatches, case by case
  // ---------------------------------------------------------------------------

  /** An empty certificate array rejects, whatever the principal and the checker. */
  lemma EmptyCertificatesReject(checker: HostnameChecker, hostname: Hostname,
                                principal: Result<Principal, SSLPeerUnverifiedException>)
    ensures !HostnameMatches(checker, hostname, Session(Success([]), principal))
  {
  }

  /** With an X.509 leaf, the result is exactly whether the checker's match returns without throwing. */
  lemma X509LeafDecides(checker: HostnameChecker, hostname: Hostname, leaf: X509Certificate,
                        rest: seq<Certificate>, principal: Result<Principal, SSLPeerUnverifiedException>)
    ensures HostnameMatches(checker, hostname, Session(Success([X509(leaf)] + rest), principal))
      <==> checker.matchCertificate(hostname, leaf).Pass?
  {
  }

  /**
   * Once certificates are available, only the leaf matters: certificates after index 0
   * and the principal can be replaced by anything without changing the result.
   */
  lemma OnlyLeafCertificateMatters(checker: HostnameChecker, hostname: Hostname, certs: seq<Certificate>,
                                   others: seq<Certificate>,
                                   principal: Result<Principal, SSLPeerUnverifiedException>,
                                   otherPrincipal: Result<Principal, SSLPeerUnverifiedException>)
    requires |certs| > 0
    ensures HostnameMatches(checker, hostname, Session(Success(certs), principal))
      == HostnameMatches(checker, hostname, Session(Success([certs[0]] + others), otherPrincipal))
  {
  }

  /**
   * A leaf certificate that the checker rejects is never overridden by a principal,
   * not even by a Kerberos principal the checker would accept.
   */
  lemma MismatchNotOverriddenByPrincipal(checker: HostnameChecker, hostname: Hostname, leaf: X509Certificate,
                                         rest: seq<Certificate>, principal: KerberosPrincipal)
    requires checker.matchCertificate(hostname, leaf).Fail?
    requires checker.matchPrincipal(hostname, principal)
    ensures !HostnameMatches(checker, hostname, Session(Success([X509(leaf)] + rest), Success(Kerberos(principal))))
  {
  }

  /** A leaf that is not X.509 rejects for every checker, so no checker is ever asked. */
  lemma NonX509LeafRejects(checker: HostnameChecker, hostname: Hostname, certs: seq<Certificate>,
                           principal: Result<Principal, SSLPeerUnverifiedException>)
    requires |certs| > 0 && certs[0].OtherCertificate?
    ensures !HostnameMatches(checker, hostname, Session(Success(certs), principal))
  {
  }

  /** With certificates unverified, a Kerberos principal decides through the checker's boolean match. */
  lemma KerberosPrincipalDecides(checker: HostnameChecker, hostname: Hostname,
                                 unverified: SSLPeerUnverifiedException, principal: KerberosPrincipal)
    ensures HostnameMatches(checker, hostname, Session(Failure(unverified), Success(Kerberos(principal))))
      == checker.matchPrincipal(hostname, principal)
  {
  }

  /** With certificates unverified, a principal of another kind rejects. */
  lemma NonKerberosPrincipalRejects(checker: HostnameChecker, hostname: Hostname,
                                    unverified: SSLPeerUnverifiedException, name: string)
    ensures !HostnameMatches(checker, hostname, Session(Failure(unverified), Success(OtherPrincipal(name))))
  {
  }

  /** Both retrievals unverified: a plain rejection, the same whatever the two exceptions say. */
  lemma DoubleUnverifiedRejects(checker: HostnameChecker, hostname: Hostname,
                                certError: SSLPeerUnverifiedException, principalError: SSLPeerUnverifiedException)
    ensures !HostnameMatches(checker, hostname, Session(Failure(certError), Failure(principalError)))
  {
  }

  /** When the own check accepts, `verify` accepts whatever fallback is configured. */
  lemma PrimaryAcceptSkipsFallback(checker: HostnameChecker, extra: Option<Verifier>,
                                   hostname: Hostname, session: Session)
    requires HostnameMatches(checker, hostname, session)
    ensures Verify(DefaultHostnameVerifier(checker, extra), hostname, session)
  {
  }

  /** When the own check rejects, the result is the fallback's, or false without one. */
  lemma FallbackDecidesOnPrimaryReject(checker: HostnameChecker, extra: Option<Verifier>,
                                       hostname: Hostname, session: Session)
    requires !HostnameMatches(checker, hostname, session)
    ensures Verify(DefaultHostnameVerifier(checker, extra), hostname, session)
      == (extra.Some? && Verify(extra.value, hostname, session))
  {
  }
}
