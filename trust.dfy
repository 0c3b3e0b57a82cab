/**
 * `ImprovedSSLDelegate` and the `isSelfSigned` extensions: how an
 * authentication challenge is answered for a session that carries the
 * delegate. Certificates, trust objects and credentials are abstract values.
 */
module Trust {
  import opened Wrappers
  import opened Strings

  /** A certificate's normalized subject and issuer sequences, when they can be read. */
  datatype Certificate = Certificate(subject: Option<seq<bv8>>, issuer: Option<seq<bv8>>)

  /** A `SecTrust`: its certificate chain; an entry is `None` when it cannot be fetched. */
  datatype SecTrust = SecTrust(chain: seq<Option<Certificate>>)

  /** `NSURLAuthenticationMethodServerTrust`, or any of the other authentication methods. */
  datatype AuthenticationMethod = ServerTrust | OtherMethod

  /** The protection space of a challenge: host, method, and the server's trust if offered. */
  datatype ProtectionSpace = ProtectionSpace(
    host: string,
    authenticationMethod: AuthenticationMethod,
    serverTrust: Option<SecTrust>)

  datatype Disposition = UseCredential | PerformDefaultHandling

  /** `URLCredential(trust:)`: a credential that wraps the presented trust. */
  datatype Credential = TrustCredential(trust: SecTrust)

  /** What the completion handler is called with. */
  datatype Decision = Decision(disposition: Disposition, credential: Option<Credential>)

  /** The diagnostic line printed before trusting a host. */
  datatype LogLine = LogLine(host: string, selfSigned: bool)

  /** The delegate's answer and what it printed, if anything. */
  datatype Reply = Reply(decision: Decision, log: Option<LogLine>)

  const DefaultHandling: Decision := Decision(PerformDefaultHandling, None)

  /** `SecCertificate.isSelfSigned`. */
  function CertificateIsSelfSigned(cert: Certificate): (r: Option<bool>)
    ensures r.Some? <==> cert.subject.Some? && cert.issuer.Some?
    ensures r.Some? ==> r.value == (cert.subject.value == cert.issuer.value)
  {
    if cert.subject.None? || cert.issuer.None? then None
    else Some(cert.subject.value == cert.issuer.value)
  }

  /** `SecTrust.isSelfSigned`. */
  function TrustIsSelfSigned(trust: SecTrust): (r: Option<bool>)
    ensures r.None? ==> |trust.chain| == 1
    ensures r == Some(true) ==>
      |trust.chain| == 1 && trust.chain[0].Some? && trust.chain[0].value.subject == trust.chain[0].value.issuer
  {
    if |trust.chain| != 1 then Some(false)
    else if trust.chain[0].None? then None
    else CertificateIsSelfSigned(trust.chain[0].value)
  }

  /** The hosts whose certificates are accepted whatever they are. */
  predicate IsTrustedHost(host: string) {
    Contains(host, "hindustantimes.com") || Contains(host, "toiimg.com") || Contains(host, "indiatimes.com")
  }

  /** `urlSession(_:didReceive:completionHandler:)`. */
  function HandleChallenge(space: ProtectionSpace): (r: Reply)
    ensures r.decision.credential.Some? <==> r.decision.disposition == UseCredential
    ensures r.log.Some? <==> r.decision.disposition == UseCredential
    ensures r.decision.credential.Some? ==> space.serverTrust == Some(r.decision.credential.value.trust)
  {
    if space.authenticationMethod == ServerTrust then
      if space.serverTrust.None? then Reply(DefaultHandling, None)
      else if IsTrustedHost(space.host) then
        var trust := space.serverTrust.value;
        Reply(Decision(UseCredential, Some(TrustCredential(trust))),
              Some(LogLine(space.host, TrustIsSelfSigned(trust).GetOr(false))))
      else Reply(DefaultHandling, None)
    else Reply(DefaultHandling, None)
  }

  /**
   * The delegate overrides validation exactly for a server-trust challenge
   * that offers a trust and whose host names one of the three providers, and
   * then it hands back the very trust it was offered; otherwise it asks for
   * default handling with no credential.
   */
  lemma HandleChallengeDecision(space: ProtectionSpace)
    ensures var d := HandleChallenge(space).decision;
      && (d.disposition == UseCredential <==>
          space.authenticationMethod == ServerTrust && space.serverTrust.Some? && IsTrustedHost(space.host))
      && (d.disposition == UseCredential ==> d.credential == Some(TrustCredential(space.serverTrust.value)))
      && (d.disposition == PerformDefaultHandling ==> d.credential == None)
  {
  }

  /**
   * Self-signedness is only logged: two challenges that agree on host,
   * method and whether a trust is offered get the same disposition, whatever
   * their certificates are.
   */
  lemma SelfSignedIsOnlyLogged(s1: ProtectionSpace, s2: ProtectionSpace)
    requires s1.host == s2.host && s1.authenticationMethod == s2.authenticationMethod
    requires s1.serverTrust.Some? <==> s2.serverTrust.Some?
    ensures HandleChallenge(s1).decision.disposition == HandleChallenge(s2).decision.disposition
    ensures HandleChallenge(s1).log.Some? ==>
      HandleChallenge(s1).log.value == LogLine(s1.host, TrustIsSelfSigned(s1.serverTrust.value).GetOr(false))
  {
  }

  /**
   * `isSelfSigned` is false unless the chain is a single certificate, unknown
   * when that certificate, its subject or its issuer cannot be read, and
   * otherwise says whether subject and issuer are equal.
   */
  lemma IsSelfSignedCases(trust: SecTrust)
    ensures |trust.chain| != 1 ==> TrustIsSelfSigned(trust) == Some(false)
    ensures TrustIsSelfSigned(trust) == Some(true) ==> |trust.chain| == 1
    ensures |trust.chain| == 1 ==>
      (TrustIsSelfSigned(trust).None? <==>
        trust.chain[0].None? || trust.chain[0].value.subject.None? || trust.chain[0].value.issuer.None?)
    ensures |trust.chain| == 1 && TrustIsSelfSigned(trust).Some? ==>
      TrustIsSelfSigned(trust).value == (trust.chain[0].value.subject.value == trust.chain[0].value.issuer.value)
  {
  }

  /**
   * The provider test is a substring test on the host, not a domain-suffix
   * test: any host with "toiimg.com" inside it is trusted, such as
   * "toiimg.com.example.org".
   */
  lemma TrustedHostBySubstring(prefix: string, suffix: string, trust: SecTrust)
    ensures HandleChallenge(ProtectionSpace(prefix + "toiimg.com" + suffix, ServerTrust, Some(trust))).decision
      == Decision(UseCredential, Some(TrustCredential(trust)))
  {
    ContainsInfix(prefix, "toiimg.com", suffix);
  }
}
