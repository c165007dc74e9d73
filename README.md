# Hostname verification of async-http-client (Grizzly provider), in Dafny

This project models `DefaultHostnameVerifier`. After a TLS handshake, this verifier
decides whether the hostname the client meant to reach matches the identity the
peer presented. This is the server-identity check of section 3.1 of RFC 2818.

- It looks at the peer's leaf certificate first. Only an X.509 leaf is handed to the
  injected `HostnameChecker`. A mismatch is signalled by a `CertificateException`.
- It turns to a Kerberos principal only when the session raises
  `SSLPeerUnverifiedException` for the certificates.
- When its own check fails, it defers to an optional fallback `HostnameVerifier`.

The project also models `MapResumableProcessor`, the in-memory key → transferred-bytes
table used by resumable-download tests.

Files:

- `wrappers.dfy`: `Option`, `Result` and `Outcome`. These stand in for Java's null
  references, for methods that return or throw, and for `void` methods that may throw.
- `hostname_verifier.dfy` (module `HostnameVerification`): the session, certificates,
  principals, the checker and the verifier chain as datatypes.
  - `hostnameMatches`, `verify` and the four constructors are functions.
  - The checker is a pair of arbitrary total functions. So every lemma holds for every
    checker, including `ProxyHostnameChecker`, whose code is not part of this model.
  - `PresentedIdentity` and `Accepts` give an independent reference reading of the
    decision tree. `PresentedIdentity` says which identity the session offers;
    `Accepts` says whether the checker accepts it.
  - `Chain` and `FirstAccepting` give a reference reading of the fallback chain as a
    first-accept-wins search.
- `resumable_processor.dfy` (module `ResumableProcessor`): a class with a `map` field.
  `Put` and `Remove` state the whole new table.

Every function is total. So `verify` returns a boolean for every session, including
one where both retrievals raise "peer unverified".

## Model

| member | source | states |
|---|---|---|
| HostnameVerification.HostnameMatches | src/main/java/com/ning/http/util/DefaultHostnameVerifier.java:109-149 | the result is true exactly when the session presents an identity (the X.509 leaf if the certificates are available, otherwise a Kerberos principal) and the checker accepts that identity |
| HostnameVerification.EmptyCertificatesReject | src/main/java/com/ning/http/util/DefaultHostnameVerifier.java:113-117 | an empty certificate array gives false, for every principal and every checker |
| HostnameVerification.X509LeafDecides | src/main/java/com/ning/http/util/DefaultHostnameVerifier.java:119-128 | with an X.509 leaf, the result is true exactly when the checker's certificate match returns without a `CertificateException` |
| HostnameVerification.OnlyLeafCertificateMatters | src/main/java/com/ning/http/util/DefaultHostnameVerifier.java:113-132 | if certificates are available, replacing every certificate after index 0 and replacing the principal leaves the result unchanged |
| HostnameVerification.MismatchNotOverriddenByPrincipal | src/main/java/com/ning/http/util/DefaultHostnameVerifier.java:122-132 | a leaf that the checker rejects gives false, even if there is a Kerberos principal that the checker accepts |
| HostnameVerification.NonX509LeafRejects | src/main/java/com/ning/http/util/DefaultHostnameVerifier.java:119-132 | a leaf that is not X.509 gives false for every checker, so no checker decides it |
| HostnameVerification.KerberosPrincipalDecides | src/main/java/com/ning/http/util/DefaultHostnameVerifier.java:133-139 | when certificates are unverified and the principal is Kerberos, the result equals the checker's boolean principal match |
| HostnameVerification.NonKerberosPrincipalRejects | src/main/java/com/ning/http/util/DefaultHostnameVerifier.java:140-147 | when certificates are unverified and the principal is of another kind, the result is false |
| HostnameVerification.DoubleUnverifiedRejects | src/main/java/com/ning/http/util/DefaultHostnameVerifier.java:143-147 | when both retrievals are unverified, the result is false, whatever either exception carries |
| HostnameVerification.PrimaryAcceptSkipsFallback | src/main/java/com/ning/http/util/DefaultHostnameVerifier.java:159-161 | when the verifier's own check accepts, `verify` is true for every fallback or none |
| HostnameVerification.FallbackDecidesOnPrimaryReject | src/main/java/com/ning/http/util/DefaultHostnameVerifier.java:162-164 | when the own check rejects, `verify` is the fallback's verdict, or false when the fallback is null |
| HostnameVerification.NewDefault | src/main/java/com/ning/http/util/DefaultHostnameVerifier.java:68-70 | the verifier built has no fallback, and its `verify` equals `hostnameMatches` with the platform checker on every input |
| HostnameVerification.NewWithChecker | src/main/java/com/ning/http/util/DefaultHostnameVerifier.java:77-79 | the verifier built has no fallback, and its `verify` equals `hostnameMatches` with the given checker on every input |
| HostnameVerification.NewWithFallback | src/main/java/com/ning/http/util/DefaultHostnameVerifier.java:86-89 | on every input, `verify` is the platform checker's `hostnameMatches`, or else the fallback's verdict if a fallback is given |
| HostnameVerification.NewWithCheckerAndFallback | src/main/java/com/ning/http/util/DefaultHostnameVerifier.java:97-100 | on every input, `verify` is the given checker's `hostnameMatches`, or else the fallback's verdict if a fallback is given |
| HostnameVerification.Chain | src/main/java/com/ning/http/util/DefaultHostnameVerifier.java:58-60 | the chain of checks a verifier walks, in construction order: a default verifier's own checker first, followed by exactly its fallback's chain (nothing when the fallback is null); a foreign verifier is the single link of itself |
| HostnameVerification.FirstAccepting | src/main/java/com/ning/http/util/DefaultHostnameVerifier.java:159-165 | finds the first link that accepts: it accepts, and every link before it rejects; if none is found, no link accepts |
| HostnameVerification.Verify | src/main/java/com/ning/http/util/DefaultHostnameVerifier.java:159-165 | over the whole fallback chain, `verify` is true exactly when a first accepting link exists in the chain, so evaluation is first-accept-wins; PrimaryAcceptSkipsFallback and FallbackDecidesOnPrimaryReject state the single-step behaviour |
| HostnameVerification.VerifyAcceptsIffSomeLinkAccepts | src/main/java/com/ning/http/util/DefaultHostnameVerifier.java:159-165 | over the whole fallback chain, `verify` is true exactly when some link accepts |
| ResumableProcessor.MapResumableProcessor.constructor | src/test/java/com/ning/http/client/resumable/MapResumableProcessor.java:28 | a new processor starts with an empty table |
| ResumableProcessor.MapResumableProcessor.Put | src/test/java/com/ning/http/client/resumable/MapResumableProcessor.java:30-32 | afterwards the key maps to the given byte count, replacing any earlier value; every other key is unchanged, present or absent |
| ResumableProcessor.MapResumableProcessor.Remove | src/test/java/com/ning/http/client/resumable/MapResumableProcessor.java:34-36 | afterwards the key is absent and every other entry is unchanged; removing an absent key leaves the table as it was |
| ResumableProcessor.MapResumableProcessor.Save | src/test/java/com/ning/http/client/resumable/MapResumableProcessor.java:38-43 | the processor is unchanged, whatever map is passed |
| ResumableProcessor.MapResumableProcessor.Load | src/test/java/com/ning/http/client/resumable/MapResumableProcessor.java:45-50 | returns exactly the current table |
| ResumableProcessor.PutThenLoad | src/test/java/com/ning/http/client/resumable/MapResumableProcessor.java:30-50 | a `put(k, v)` followed by `load()` yields the old table with `k` now mapped to `v` |

## Left out

- The name-matching algorithm of `HostnameChecker`, `ProxyHostnameChecker` and the platform's
  `sun.security.util.HostnameChecker` (SAN over CN, wildcard labels, IP literals). That code is
  not part of this model. The checker is an uninterpreted pair of functions. The two constructors
  that build a `ProxyHostnameChecker` (`NewDefault`, `NewWithFallback`) take that checker as the
  parameter `proxy`, so they coincide with `NewWithChecker` and `NewWithCheckerAndFallback`.
- Logging, including the Base64 encoding of the session id. It does not affect any result.
- Exceptions other than `CertificateException` and `SSLPeerUnverifiedException`. Examples are
  runtime exceptions from the checker or a foreign verifier, and a null certificate array. The
  source does not catch them, and the model does not claim that `verify` absorbs them.
- A null element at index 0 of the certificate array, or a null principal. Java's `instanceof`
  is false for these, so they take the same branch as a non-X.509 certificate or a
  non-Kerberos principal. The model does not name them separately.
- Certificate parsing, trust and chain validation, and the `SSLSession` / `SSLEngine` machinery.
  The session is an immutable value with the two results the verifier reads.
- A foreign `HostnameVerifier` is modelled as a pure function of hostname and session. Side
  effects it might have are not modelled.
- `MapResumableProcessor.Load`: it returns the table's current contents. It does not model that
  Java returns the live `HashMap`, which callers could then change. Null keys are not modelled.
  Byte counts are Java `long` values (a 64-bit newtype).
- The Grizzly connection-pool and WebSocket close-code tests. They are network integration
  tests with no logic to model.
