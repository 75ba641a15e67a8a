/** The ACME side of the tool: the renewal decision, the resolution of the
    stored account into an identity, the Obtain/Renew/Revoke sequences over
    the ACME library, and the domain-list merge. Every library call (lego,
    crypto, PEM and JSON parsing) is an oracle whose answer is fixed up front
    in `LegoAnswers`; the `LegoLibrary` object answers with it and logs the
    call, so that the order of calls can be stated. */
module Lego {
  import opened Common
  import opened Models

  // ---------------------------------------------------------------------
  // What the library hands over
  // ---------------------------------------------------------------------

  /** The fields of a parsed X.509 certificate this core reads: the CA flag,
      NotAfter in Unix seconds, and the domains `ExtractDomains` reports. */
  datatype X509Cert = X509Cert(isCA: bool, notAfter: int, domains: seq<string>)

  /** A private key as this core holds it. `BundleAsKey` is what the stored
      account key becomes: it is parsed with the certificate-bundle parser and
      its result is stored in the interface-typed key slot. */
  datatype PrivateKey = Key(material: string) | BundleAsKey(certs: seq<X509Cert>)

  /** The CA's registration resource for an account. */
  datatype Registration = Registration(uri: string, body: string)

  /** Go's zero value of a registration resource. */
  const ZeroRegistration := Registration("", "")

  /** The identity handed to the ACME client: stored account, key (nil when
      absent) and registration. */
  datatype TmpUser = TmpUser(acmeUser: AcmeUser, privateKey: Option<PrivateKey>, registration: Registration)

  /** The fixed client configuration: the staging directory and RSA-2048 keys. */
  const StagingDirectoryUrl := "https://acme-staging-v02.api.letsencrypt.org/directory"
  const Rsa2048 := "RSA2048"

  datatype ClientConfig = ClientConfig(user: TmpUser, caDirUrl: string, keyType: string)

  function NewConfig(user: TmpUser): ClientConfig
  {
    ClientConfig(user, StagingDirectoryUrl, Rsa2048)
  }

  /** An issuance request as the ACME library takes it. */
  datatype ObtainRequest = ObtainRequest(domains: seq<string>, bundle: bool, privateKey: Option<PrivateKey>, mustStaple: bool)

  /** What the library returns for an issued certificate. */
  datatype CertificateResource = CertificateResource(
    domain: string, certUrl: string, certStableUrl: string,
    certificate: string, privateKey: string, issuerCertificate: string)

  /** The domain list Obtain requests: fixed in the code, whatever the configuration says. */
  const ObtainDomains: seq<string> := ["*.scweiqu.com"]

  /** The record built from an issued certificate (its id is not yet assigned). */
  function StoredCertificate(res: CertificateResource): (c: Certificate)
  {
    Certificate(0, res.domain, res.certUrl, res.certStableUrl, res.certificate, res.issuerCertificate, res.privateKey)
  }

  // ---------------------------------------------------------------------
  // Renewal policy
  // ---------------------------------------------------------------------

  const SecondsPerDay := 86400

  /** Go's conversion of a quotient to int: division truncating toward zero,
      unlike Dafny's Euclidean `/` on a negative dividend. */
  function TruncatedDiv(a: int, b: int): (q: int)
    requires b > 0
    ensures 0 <= a ==> 0 <= q && q * b <= a < q * b + b
    ensures a < 0 ==> q <= 0 && q * b - b < a <= q * b
  {
    if a >= 0 then EuclideanBounds(a, b); a / b
    else EuclideanBounds(-a, b); -((-a) / b)
  }

  lemma EuclideanBounds(n: int, b: int)
    requires n >= 0 && b > 0
    ensures 0 <= n / b && (n / b) * b <= n < (n / b) * b + b
  {
  }

  /** Whole days left until `notAfter`, truncated toward zero. */
  function DaysRemaining(notAfter: int, now: int): int
  {
    TruncatedDiv(notAfter - now, SecondsPerDay)
  }

  /** needRenewal: a CA certificate stops the process; a negative threshold
      always renews; otherwise renew unless more than `days` whole days are
      left. `domain` only appears in log lines. */
  function NeedRenewal(cert: X509Cert, domain: string, days: int, now: int): (r: Outcome<bool>)
    ensures !r.Err?
  {
    if cert.isCA then Fatal(CaCertificate)
    else if days >= 0 && DaysRemaining(cert.notAfter, now) > days then Ok(false)
    else Ok(true)
  }

  /** A CA certificate never yields a decision, whatever the threshold or time. */
  lemma CaCertificateIsFatal(cert: X509Cert, domain: string, days: int, now: int)
    requires cert.isCA
    ensures NeedRenewal(cert, domain, days, now) == Fatal(CaCertificate)
  {
  }

  /** A negative threshold renews regardless of expiry. */
  lemma NegativeThresholdAlwaysRenews(cert: X509Cert, domain: string, days: int, now: int)
    requires !cert.isCA && days < 0
    ensures NeedRenewal(cert, domain, days, now) == Ok(true)
  {
  }

  /** The decision in closed form over seconds: with a non-negative
      threshold, renewal is skipped exactly when at least `days + 1` full
      days remain. In particular the boundary (exactly `days` days left) and
      every expired certificate renew. */
  lemma NeedRenewalClosedForm(cert: X509Cert, domain: string, days: int, now: int)
    requires !cert.isCA && days >= 0
    ensures NeedRenewal(cert, domain, days, now) == Ok(cert.notAfter - now < (days + 1) * SecondsPerDay)
  {
    var a := cert.notAfter - now;
    var q := DaysRemaining(cert.notAfter, now);
    if a >= 0 {
      if q > days {
        assert (days + 1) * SecondsPerDay <= q * SecondsPerDay by {
          MulMonotone(days + 1, q, SecondsPerDay);
        }
      } else {
        assert (q + 1) * SecondsPerDay <= (days + 1) * SecondsPerDay by {
          MulMonotone(q + 1, days + 1, SecondsPerDay);
        }
      }
    } else {
      assert q * SecondsPerDay <= 0;
      assert (days + 1) * SecondsPerDay > 0;
    }
  }

  lemma MulMonotone(x: int, y: int, k: int)
    requires x <= y && k >= 0
    ensures x * k <= y * k
  {
    assert (y - x) * k >= 0;
  }

  /** Expired certificates always renew. */
  lemma ExpiredCertificateRenews(cert: X509Cert, domain: string, days: int, now: int)
    requires !cert.isCA && cert.notAfter <= now
    ensures NeedRenewal(cert, domain, days, now) == Ok(true)
  {
    if days >= 0 {
      NeedRenewalClosedForm(cert, domain, days, now);
    }
  }

  /** Truncation toward zero and floor division of the remaining seconds
      lead to the same decision: they differ only for a certificate that
      expired less than a day ago, where both results are at most 0. */
  lemma FloorGivesSameDecision(cert: X509Cert, days: int, now: int)
    requires days >= 0
    ensures (DaysRemaining(cert.notAfter, now) > days) == ((cert.notAfter - now) / SecondsPerDay > days)
  {
    var a := cert.notAfter - now;
    if a < 0 {
      assert a / SecondsPerDay < 0;
    }
  }

  // ---------------------------------------------------------------------
  // merge
  // ---------------------------------------------------------------------

  /** merge as a specification: walk `next` in order and append each
      element not yet in the list built so far. */
  function Merged(prev: seq<string>, next: seq<string>): seq<string>
    decreases |next|
  {
    if next == [] then prev
    else Merged(if next[0] in prev then prev else prev + [next[0]], next[1..])
  }

  /** The position of the first occurrence of `x` in `s`. */
  function FirstIndex(s: seq<string>, x: string): (i: nat)
    requires x in s
    ensures i < |s| && s[i] == x && x !in s[..i]
  {
    if s[0] == x then 0
    else
      var j := FirstIndex(s[1..], x);
      assert s[..j + 1] == [s[0]] + s[1..][..j];
      j + 1
  }

  /** `prev` is kept as an unchanged prefix. */
  lemma {:induction false} MergedKeepsPrefix(prev: seq<string>, next: seq<string>)
    ensures |Merged(prev, next)| >= |prev| && Merged(prev, next)[..|prev|] == prev
    decreases |next|
  {
    if next != [] {
      var p := if next[0] in prev then prev else prev + [next[0]];
      MergedKeepsPrefix(p, next[1..]);
      assert Merged(prev, next)[..|prev|] == Merged(p, next[1..])[..|p|][..|prev|];
    }
  }

  /** Nothing is lost and nothing is invented: the result holds exactly the
      elements of both lists. */
  lemma {:induction false} MergedMembers(prev: seq<string>, next: seq<string>)
    ensures forall x :: x in Merged(prev, next) <==> x in prev || x in next
    decreases |next|
  {
    if next != [] {
      var p := if next[0] in prev then prev else prev + [next[0]];
      MergedMembers(p, next[1..]);
      assert next == [next[0]] + next[1..];
    }
  }

  /** The appended elements come from `next`, are not in `prev`, appear at
      most once, and follow the order of their first occurrence in `next`. */
  lemma {:induction false} MergedAppendsInOrder(prev: seq<string>, next: seq<string>)
    ensures var r := Merged(prev, next);
            forall i :: |prev| <= i < |r| ==> r[i] !in prev && r[i] in next
    ensures var r := Merged(prev, next);
            forall i, j :: |prev| <= i < j < |r| ==> r[i] != r[j] && FirstIndex(next, r[i]) < FirstIndex(next, r[j])
    decreases |next|
  {
    if next != [] {
      var n0 := next[0];
      var p := if n0 in prev then prev else prev + [n0];
      var r := Merged(prev, next);
      assert r == Merged(p, next[1..]);
      MergedAppendsInOrder(p, next[1..]);
      MergedKeepsPrefix(p, next[1..]);
      assert n0 in p;
      forall i | |prev| <= i < |r|
        ensures r[i] !in prev && r[i] in next
      {
        if i >= |p| {
          assert r[i] in next[1..];
        } else {
          assert r[i] == p[i] == n0;
        }
      }
      forall i, j | |prev| <= i < j < |r|
        ensures r[i] != r[j] && FirstIndex(next, r[i]) < FirstIndex(next, r[j])
      {
        assert r[j] !in p && r[j] != n0;
        if i >= |p| {
          assert r[i] != n0;
          assert FirstIndex(next, r[i]) == 1 + FirstIndex(next[1..], r[i]);
          assert FirstIndex(next, r[j]) == 1 + FirstIndex(next[1..], r[j]);
        } else {
          assert r[i] == p[i] == n0;
        }
      }
    }
  }

  /** merge: the nested scan with a `found` flag, appending in place. */
  method Merge(prevDomains: seq<string>, nextDomains: seq<string>) returns (merged: seq<string>)
    ensures merged == Merged(prevDomains, nextDomains)
    ensures |merged| >= |prevDomains| && merged[..|prevDomains|] == prevDomains
    ensures forall x :: x in merged <==> x in prevDomains || x in nextDomains
  {
    merged := prevDomains;
    var k := 0;
    while k < |nextDomains|
      invariant 0 <= k <= |nextDomains|
      invariant Merged(merged, nextDomains[k..]) == Merged(prevDomains, nextDomains)
    {
      var next := nextDomains[k];
      var found := false;
      var j := 0;
      while j < |merged|
        invariant 0 <= j <= |merged|
        invariant !found && next !in merged[..j]
      {
        var prev := merged[j];
        if prev == next {
          found := true;
          break;
        }
        j := j + 1;
      }
      assert found <==> next in merged by {
        if !found {
          assert merged[..j] == merged;
        }
      }
      if !found {
        merged := merged + [next];
      }
      assert nextDomains[k..][1..] == nextDomains[k + 1..];
      k := k + 1;
    }
    assert nextDomains[k..] == [];
    MergedKeepsPrefix(prevDomains, nextDomains);
    MergedMembers(prevDomains, nextDomains);
  }

  // ---------------------------------------------------------------------
  // Library answers and the call log
  // ---------------------------------------------------------------------

  /** The answer of every library call, fixed up front; errors are the
      library's messages. */
  datatype LegoAnswers = LegoAnswers(
    parseBundle: string -> Result<seq<X509Cert>, string>,        // certcrypto.ParsePEMBundle
    parsePrivateKey: string -> Result<PrivateKey, string>,       // certcrypto.ParsePEMPrivateKey
    generateKey: Result<PrivateKey, string>,                     // ecdsa.GenerateKey on P-256
    unmarshalResource: string -> Result<Registration, string>,   // json.Unmarshal of the stored resource
    newClient: Result<(), string>,                               // lego.NewClient
    dnsProvider: Result<(), string>,                             // newDNSChallengeProviderByName
    setDns01: Result<(), string>,                                // Challenge.SetDNS01Provider
    register: Result<Registration, string>,                      // Registration.Register
    obtain: ObtainRequest -> Result<CertificateResource, string>, // Certificate.Obtain
    revoke: string -> Result<(), string>)                        // Certificate.Revoke

  /** One library call, as logged. */
  datatype LegoCall =
    | PemBundleParsed(pem: string)
    | PemPrivateKeyParsed(pem: string)
    | KeyGenerated
    | ResourceUnmarshalled(json: string)
    | ClientCreated(config: ClientConfig)
    | DnsProviderCreated(providerName: string, accessKeyId: string)
    | Dns01ProviderSet
    | Registered
    | AccountSaved(key: Option<PrivateKey>, registration: Registration)
    | ObtainRequested(registration: Registration, request: ObtainRequest)
    | RevokeRequested(certificate: string)

  /** A flow's outcome together with the calls it made, in order. */
  datatype Run<+T> = Run(outcome: Outcome<T>, calls: seq<LegoCall>)

  // ---------------------------------------------------------------------
  // Identity resolution (getUserByAcmeUser)
  // ---------------------------------------------------------------------

  /** The four mutually exclusive ways a stored account becomes an identity. */
  datatype IdentitySource = StoredKey | FreshKey | StoredResource | MissingResource

  function IdentitySourceOf(au: AcmeUser, newUser: bool): IdentitySource
  {
    if |au.privateKey| > 0 then StoredKey
    else if newUser then FreshKey
    else if |au.resource| > 0 then StoredResource
    else MissingResource
  }

  /** The library calls identity resolution makes. */
  function IdentityCalls(au: AcmeUser, newUser: bool): seq<LegoCall>
  {
    match IdentitySourceOf(au, newUser)
    case StoredKey => [PemBundleParsed(au.privateKey)]
    case FreshKey => [KeyGenerated]
    case StoredResource => [ResourceUnmarshalled(au.resource)]
    case MissingResource => []
  }

  /** getUserByAcmeUser: a stored key wins; else a new user gets a fresh key;
      else the stored registration resource is unmarshalled, and its absence
      is the "missing account data" error. */
  function GetUserByAcmeUser(au: AcmeUser, newUser: bool, ans: LegoAnswers): (r: Result<TmpUser, Error>)
    ensures r.Success? ==> r.value.acmeUser == au
    ensures r.Success? ==> (r.value.privateKey.None? <==> IdentitySourceOf(au, newUser) == StoredResource)
  {
    match IdentitySourceOf(au, newUser)
    case StoredKey =>
      (match ans.parseBundle(au.privateKey)
       case Failure(e) => Failure(Library(e))
       case Success(certs) => Success(TmpUser(au, Some(BundleAsKey(certs)), ZeroRegistration)))
    case FreshKey =>
      (match ans.generateKey
       case Failure(e) => Failure(Library(e))
       case Success(k) => Success(TmpUser(au, Some(k), ZeroRegistration)))
    case StoredResource =>
      (match ans.unmarshalResource(au.resource)
       case Failure(e) => Failure(Library(e))
       case Success(reg) => Success(TmpUser(au, None, reg)))
    case MissingResource => Failure(MissingAccountData)
  }

  /** Two resolutions give the same identity, whatever account record they carry. */
  predicate SameIdentity(r1: Result<TmpUser, Error>, r2: Result<TmpUser, Error>)
  {
    match r1
    case Failure(e) => r2 == Failure(e)
    case Success(u) => r2.Success? && r2.value.privateKey == u.privateKey && r2.value.registration == u.registration
  }

  /** A stored key takes precedence over `newUser`: the key is parsed and
      nothing else is called, the stored resource is never read (any other
      resource and either flag give the same identity), and the registration
      is the zero value. */
  lemma StoredKeyTakesPrecedence(au: AcmeUser, newUser: bool, otherResource: string, otherNewUser: bool, ans: LegoAnswers)
    requires |au.privateKey| > 0
    ensures IdentityCalls(au, newUser) == [PemBundleParsed(au.privateKey)]
    ensures SameIdentity(GetUserByAcmeUser(au, newUser, ans),
                         GetUserByAcmeUser(au.(resource := otherResource), otherNewUser, ans))
    ensures var r := GetUserByAcmeUser(au, newUser, ans);
            && (r.Success? <==> ans.parseBundle(au.privateKey).Success?)
            && (r.Success? ==> r.value.registration == ZeroRegistration
                               && r.value.privateKey == Some(BundleAsKey(ans.parseBundle(au.privateKey).value)))
  {
  }

  /** Without a stored key a new user gets a freshly generated key and the
      zero registration; generation is the only call. */
  lemma NewUserGetsFreshKey(au: AcmeUser, ans: LegoAnswers)
    requires |au.privateKey| == 0
    ensures IdentityCalls(au, true) == [KeyGenerated]
    ensures var r := GetUserByAcmeUser(au, true, ans);
            && (r.Success? <==> ans.generateKey.Success?)
            && (r.Success? ==> r.value.privateKey == Some(ans.generateKey.value) && r.value.registration == ZeroRegistration)
  {
  }

  /** Without a stored key an existing user needs the stored resource: an
      empty one is the "missing account data" error with no call made; a
      present one is unmarshalled into the registration and leaves no key. */
  lemma ExistingUserNeedsResource(au: AcmeUser, ans: LegoAnswers)
    requires |au.privateKey| == 0
    ensures |au.resource| == 0 ==> GetUserByAcmeUser(au, false, ans) == Failure(MissingAccountData) && IdentityCalls(au, false) == []
    ensures |au.resource| > 0 ==>
              var r := GetUserByAcmeUser(au, false, ans);
              && IdentityCalls(au, false) == [ResourceUnmarshalled(au.resource)]
              && (r.Success? <==> ans.unmarshalResource(au.resource).Success?)
              && (r.Success? ==> r.value.privateKey == None && r.value.registration == ans.unmarshalResource(au.resource).value)
  {
  }

  // ---------------------------------------------------------------------
  // The library object
  // ---------------------------------------------------------------------

  /** The ACME library and the crypto helpers as one oracle: each call is
      appended to `log` and answered from `answers`. */
  class LegoLibrary {
    const answers: LegoAnswers
    var log: seq<LegoCall>

    constructor (answers: LegoAnswers)
      ensures this.answers == answers && log == []
    {
      this.answers := answers;
      log := [];
    }

    method ParsePemBundle(pem: string) returns (r: Result<seq<X509Cert>, string>)
      modifies this
      ensures log == old(log) + [PemBundleParsed(pem)] && r == answers.parseBundle(pem)
    {
      log := log + [PemBundleParsed(pem)];
      r := answers.parseBundle(pem);
    }

    method ParsePemPrivateKey(pem: string) returns (r: Result<PrivateKey, string>)
      modifies this
      ensures log == old(log) + [PemPrivateKeyParsed(pem)] && r == answers.parsePrivateKey(pem)
    {
      log := log + [PemPrivateKeyParsed(pem)];
      r := answers.parsePrivateKey(pem);
    }

    method GenerateKey() returns (r: Result<PrivateKey, string>)
      modifies this
      ensures log == old(log) + [KeyGenerated] && r == answers.generateKey
    {
      log := log + [KeyGenerated];
      r := answers.generateKey;
    }

    /** Identity resolution with the calls it makes. */
    method GetUser(au: AcmeUser, newUser: bool) returns (r: Result<TmpUser, Error>)
      modifies this
      ensures log == old(log) + IdentityCalls(au, newUser) && r == GetUserByAcmeUser(au, newUser, answers)
    {
      log := log + IdentityCalls(au, newUser);
      r := GetUserByAcmeUser(au, newUser, answers);
    }

    method NewClient(config: ClientConfig) returns (r: Result<(), string>)
      modifies this
      ensures log == old(log) + [ClientCreated(config)] && r == answers.newClient
    {
      log := log + [ClientCreated(config)];
      r := answers.newClient;
    }

    method NewDnsChallengeProvider(config: DomainConfig, ak: AccessKey) returns (r: Result<(), string>)
      modifies this
      ensures log == old(log) + [DnsProviderCreated(config.providerName, ak.accessKeyId)] && r == answers.dnsProvider
    {
      log := log + [DnsProviderCreated(config.providerName, ak.accessKeyId)];
      r := answers.dnsProvider;
    }

    method SetDns01Provider() returns (r: Result<(), string>)
      modifies this
      ensures log == old(log) + [Dns01ProviderSet] && r == answers.setDns01
    {
      log := log + [Dns01ProviderSet];
      r := answers.setDns01;
    }

    method Register() returns (r: Result<Registration, string>)
      modifies this
      ensures log == old(log) + [Registered] && r == answers.register
    {
      log := log + [Registered];
      r := answers.register;
    }

    /** Persisting the account; its error is discarded by the caller, so it
      has no answer here. */
    method SaveResourceAndPrivateKey(key: Option<PrivateKey>, registration: Registration)
      modifies this
      ensures log == old(log) + [AccountSaved(key, registration)]
    {
      log := log + [AccountSaved(key, registration)];
    }

    method Obtain(registration: Registration, request: ObtainRequest) returns (r: Result<CertificateResource, string>)
      modifies this
      ensures log == old(log) + [ObtainRequested(registration, request)] && r == answers.obtain(request)
    {
      log := log + [ObtainRequested(registration, request)];
      r := answers.obtain(request);
    }

    method Revoke(certificate: string) returns (r: Result<(), string>)
      modifies this
      ensures log == old(log) + [RevokeRequested(certificate)] && r == answers.revoke(certificate)
    {
      log := log + [RevokeRequested(certificate)];
      r := answers.revoke(certificate);
    }
  }

  // ---------------------------------------------------------------------
  // Obtain, Renew, Revoke as specifications
  // ---------------------------------------------------------------------

  /** Client creation, DNS provider construction and installation: each
      failure is fatal and ends the sequence. */
  datatype Setup = Setup(failure: Option<string>, calls: seq<LegoCall>)

  function ClientSetup(user: TmpUser, config: DomainConfig, ak: AccessKey, ans: LegoAnswers): Setup
  {
    var c1 := [ClientCreated(NewConfig(user))];
    if ans.newClient.Failure? then Setup(Some(ans.newClient.error), c1)
    else
      var c2 := c1 + [DnsProviderCreated(config.providerName, ak.accessKeyId)];
      if ans.dnsProvider.Failure? then Setup(Some(ans.dnsProvider.error), c2)
      else
        var c3 := c2 + [Dns01ProviderSet];
        if ans.setDns01.Failure? then Setup(Some(ans.setDns01.error), c3)
        else Setup(None, c3)
  }

  /** The issuance call that ends Obtain and Renew; its failure is fatal. */
  function IssueRun(registration: Registration, request: ObtainRequest, ans: LegoAnswers, calls: seq<LegoCall>): Run<Certificate>
  {
    var c := calls + [ObtainRequested(registration, request)];
    match ans.obtain(request)
    case Failure(e) => Run(Fatal(Library(e)), c)
    case Success(res) => Run(Ok(StoredCertificate(res)), c)
  }

  /** ObtainCertificate: resolve a new identity, set up the client, register,
      save the account, then issue for the fixed domain list with bundling. */
  function ObtainRun(au: AcmeUser, config: DomainConfig, ak: AccessKey, ans: LegoAnswers): Run<Certificate>
  {
    var c0 := IdentityCalls(au, true);
    match GetUserByAcmeUser(au, true, ans)
    case Failure(e) => Run(Err(e), c0)
    case Success(user) =>
      var setup := ClientSetup(user, config, ak, ans);
      var c1 := c0 + setup.calls;
      if setup.failure.Some? then Run(Fatal(Library(setup.failure.value)), c1)
      else
        var c2 := c1 + [Registered];
        match ans.register
        case Failure(e) => Run(Fatal(Library(e)), c2)
        case Success(reg) =>
          var c3 := c2 + [AccountSaved(user.privateKey, reg)];
          IssueRun(reg, ObtainRequest(ObtainDomains, true, None, false), ans, c3)
  }

  /** RenewCertificate: parse the stored bundle, decide, then (only when due)
      pick the key, resolve the existing identity, set up the client and
      issue for every domain of the existing certificate. */
  function RenewRun(au: AcmeUser, config: DomainConfig, ak: AccessKey, data: Certificate, now: int, ans: LegoAnswers): Run<Certificate>
  {
    var parsed := [PemBundleParsed(data.certificate)];
    match ans.parseBundle(data.certificate)
    case Failure(e) => Run(Fatal(Library(e)), parsed)
    case Success(certs) =>
      if |certs| == 0 then Run(Fatal(EmptyBundle), parsed)
      else
        var due := NeedRenewal(certs[0], config.domain, config.defaultRenewDay, now);
        if due.Fatal? then Run(Fatal(due.reason), parsed)
        else if !due.value then Run(Err(NotDue), parsed)
        else
          var rest := RenewDueRun(au, config, ak, data, certs[0], ans);
          Run(rest.outcome, parsed + rest.calls)
  }

  /** The part of Renew that runs once renewal is due. */
  function RenewDueRun(au: AcmeUser, config: DomainConfig, ak: AccessKey, data: Certificate, cert: X509Cert,
                       ans: LegoAnswers): Run<Certificate>
  {
    var key := if config.HasReuseKey() then ans.parsePrivateKey(data.privateKey) else ans.generateKey;
    var c1 := [if config.HasReuseKey() then PemPrivateKeyParsed(data.privateKey) else KeyGenerated];
    if key.Failure? then
      Run(if config.HasReuseKey() then Err(Library(key.error)) else Fatal(Library(key.error)), c1)
    else
      var request := ObtainRequest(cert.domains, config.HasBundle(), Some(key.value), config.HasMustStaple());
      var c2 := c1 + IdentityCalls(au, false);
      match GetUserByAcmeUser(au, false, ans)
      case Failure(e) => Run(Err(e), c2)
      case Success(user) =>
        var setup := ClientSetup(user, config, ak, ans);
        var c3 := c2 + setup.calls;
        if setup.failure.Some? then Run(Fatal(Library(setup.failure.value)), c3)
        else IssueRun(user.registration, request, ans, c3)
  }

  /** RevokeCertificate: resolve the existing identity, create a client and
      revoke; a revocation failure is fatal, success returns nothing. */
  function RevokeRun(au: AcmeUser, data: Certificate, ans: LegoAnswers): Run<()>
  {
    var c0 := IdentityCalls(au, false);
    match GetUserByAcmeUser(au, false, ans)
    case Failure(e) => Run(Err(e), c0)
    case Success(user) =>
      var c1 := c0 + [ClientCreated(NewConfig(user))];
      if ans.newClient.Failure? then Run(Fatal(Library(ans.newClient.error)), c1)
      else
        var c2 := c1 + [RevokeRequested(data.certificate)];
        match ans.revoke(data.certificate)
        case Failure(e) => Run(Fatal(Library(e)), c2)
        case Success(_) => Run(Ok(()), c2)
  }

  // ---------------------------------------------------------------------
  // What the flows promise
  // ---------------------------------------------------------------------

  /** Renew answers "not due" exactly when the parsed leaf is not a CA and
      has more than the threshold left, and then the bundle parse is the only
      call made: no key, identity, client or DNS work happens. */
  lemma RenewNotDueBeforeAnyWork(au: AcmeUser, config: DomainConfig, ak: AccessKey, data: Certificate, now: int, ans: LegoAnswers)
    ensures var run := RenewRun(au, config, ak, data, now, ans);
            var parsed := ans.parseBundle(data.certificate);
            run.outcome == Err(NotDue) <==>
              parsed.Success? && |parsed.value| > 0
              && NeedRenewal(parsed.value[0], config.domain, config.defaultRenewDay, now) == Ok(false)
    ensures var run := RenewRun(au, config, ak, data, now, ans);
            run.outcome == Err(NotDue) ==> run.calls == [PemBundleParsed(data.certificate)]
  {
  }

  /** Every call after the bundle parse is made only once renewal is due. */
  lemma RenewWorkOnlyWhenDue(au: AcmeUser, config: DomainConfig, ak: AccessKey, data: Certificate, now: int, ans: LegoAnswers)
    requires |RenewRun(au, config, ak, data, now, ans).calls| > 1
    ensures var parsed := ans.parseBundle(data.certificate);
            && parsed.Success? && |parsed.value| > 0
            && NeedRenewal(parsed.value[0], config.domain, config.defaultRenewDay, now) == Ok(true)
  {
  }

  /** The renewal request covers every domain of the existing leaf, takes
      bundling and must-staple from the configuration, and carries the
      stored certificate key when key reuse is on and a fresh key otherwise. */
  lemma RenewRequestShape(au: AcmeUser, config: DomainConfig, ak: AccessKey, data: Certificate, now: int, ans: LegoAnswers, c: LegoCall)
    requires c in RenewRun(au, config, ak, data, now, ans).calls && c.ObtainRequested?
    ensures ans.parseBundle(data.certificate).Success? && |ans.parseBundle(data.certificate).value| > 0
    ensures var leaf := ans.parseBundle(data.certificate).value[0];
            && c.request.domains == leaf.domains
            && c.request.bundle == config.HasBundle()
            && c.request.mustStaple == config.HasMustStaple()
            && c.request.privateKey == Some(if config.HasReuseKey() then ans.parsePrivateKey(data.privateKey).value
                                            else ans.generateKey.value)
  {
    var parsed := ans.parseBundle(data.certificate);
    assert parsed.Success? && |parsed.value| > 0 && !parsed.value[0].isCA;
    var rest := RenewDueRun(au, config, ak, data, parsed.value[0], ans);
    assert c in rest.calls;
    var key := if config.HasReuseKey() then ans.parsePrivateKey(data.privateKey) else ans.generateKey;
    assert key.Success?;
    var user := GetUserByAcmeUser(au, false, ans);
    assert user.Success?;
    var setup := ClientSetup(user.value, config, ak, ans);
    assert c !in IdentityCalls(au, false) && c !in setup.calls;
  }

  /** With key reuse on, an unreadable stored certificate key is an error
      returned to the caller (not fatal), before identity or client work. */
  lemma RenewKeyParseErrorIsReturned(au: AcmeUser, config: DomainConfig, ak: AccessKey, data: Certificate, now: int, ans: LegoAnswers)
    requires ans.parseBundle(data.certificate).Success? && |ans.parseBundle(data.certificate).value| > 0
    requires NeedRenewal(ans.parseBundle(data.certificate).value[0], config.domain, config.defaultRenewDay, now) == Ok(true)
    requires config.HasReuseKey() && ans.parsePrivateKey(data.privateKey).Failure?
    ensures var run := RenewRun(au, config, ak, data, now, ans);
            && run.outcome == Err(Library(ans.parsePrivateKey(data.privateKey).error))
            && run.calls == [PemBundleParsed(data.certificate), PemPrivateKeyParsed(data.privateKey)]
  {
  }

  /** Obtain registers and saves the account right before issuance; the
      request is the fixed domain list with bundling, no key and no
      must-staple, under the registration just returned. */
  lemma ObtainSavesAccountBeforeIssuing(au: AcmeUser, config: DomainConfig, ak: AccessKey, ans: LegoAnswers, i: nat)
    requires i < |ObtainRun(au, config, ak, ans).calls| && ObtainRun(au, config, ak, ans).calls[i].ObtainRequested?
    ensures var calls := ObtainRun(au, config, ak, ans).calls;
            && i == |calls| - 1 && i >= 2
            && GetUserByAcmeUser(au, true, ans).Success? && ans.register.Success?
            && calls[i - 2] == Registered
            && calls[i - 1] == AccountSaved(GetUserByAcmeUser(au, true, ans).value.privateKey, ans.register.value)
            && calls[i] == ObtainRequested(ans.register.value, ObtainRequest(ObtainDomains, true, None, false))
  {
    var user := GetUserByAcmeUser(au, true, ans);
    assert user.Success?;
    var setup := ClientSetup(user.value, config, ak, ans);
    var prefix := IdentityCalls(au, true) + setup.calls + [Registered, AccountSaved(user.value.privateKey, ans.register.value)];
    assert forall k :: 0 <= k < |prefix| ==> !prefix[k].ObtainRequested?;
  }

  /** With no stored key, Obtain starts by generating a key, and the account
      it saves carries that key. */
  lemma ObtainWithoutStoredKeySavesFreshKey(au: AcmeUser, config: DomainConfig, ak: AccessKey, ans: LegoAnswers)
    requires |au.privateKey| == 0
    ensures var calls := ObtainRun(au, config, ak, ans).calls;
            && calls[0] == KeyGenerated
            && forall c | c in calls && c.AccountSaved? :: c.key == Some(ans.generateKey.value)
  {
  }

  /** No partial certificate: Obtain and Renew succeed only with the
      certificate the library issued on their last call. */
  predicate IssuedOnLastCall(run: Run<Certificate>, ans: LegoAnswers)
  {
    run.outcome.Ok? ==>
      && |run.calls| > 0
      && run.calls[|run.calls| - 1].ObtainRequested?
      && ans.obtain(run.calls[|run.calls| - 1].request).Success?
      && run.outcome.value == StoredCertificate(ans.obtain(run.calls[|run.calls| - 1].request).value)
  }

  lemma SuccessOnlyFromIssuance(au: AcmeUser, config: DomainConfig, ak: AccessKey, data: Certificate, now: int, ans: LegoAnswers)
    ensures IssuedOnLastCall(ObtainRun(au, config, ak, ans), ans)
    ensures IssuedOnLastCall(RenewRun(au, config, ak, data, now, ans), ans)
  {
  }

  /** Revoke succeeds exactly when the identity resolves, the client is
      created and the revocation of the stored certificate bytes succeeds; a
      refused revocation stops the process. */
  lemma RevokeOutcome(au: AcmeUser, data: Certificate, ans: LegoAnswers)
    ensures var run := RevokeRun(au, data, ans);
            run.outcome.Ok? <==>
              GetUserByAcmeUser(au, false, ans).Success? && ans.newClient.Success? && ans.revoke(data.certificate).Success?
    ensures var run := RevokeRun(au, data, ans);
            GetUserByAcmeUser(au, false, ans).Success? && ans.newClient.Success? && ans.revoke(data.certificate).Failure? ==>
              run.outcome == Fatal(Library(ans.revoke(data.certificate).error))
              && run.calls[|run.calls| - 1] == RevokeRequested(data.certificate)
  {
  }

  // ---------------------------------------------------------------------
  // The flows, step by step
  // ---------------------------------------------------------------------

  /** Create the client, build the DNS-01 provider and install it. */
  method SetupClient(lib: LegoLibrary, myUser: TmpUser, config: DomainConfig, ak: AccessKey) returns (failure: Option<string>)
    modifies lib
    ensures lib.log == old(lib.log) + ClientSetup(myUser, config, ak, lib.answers).calls
    ensures failure == ClientSetup(myUser, config, ak, lib.answers).failure
  {
    var client := lib.NewClient(NewConfig(myUser));
    if client.Failure? {
      return Some(client.error);
    }
    var provider := lib.NewDnsChallengeProvider(config, ak);
    if provider.Failure? {
      return Some(provider.error);
    }
    var installed := lib.SetDns01Provider();
    if installed.Failure? {
      return Some(installed.error);
    }
    failure := None;
  }

  method ObtainCertificate(lib: LegoLibrary, au: AcmeUser, config: DomainConfig, ak: AccessKey) returns (r: Outcome<Certificate>)
    modifies lib
    ensures lib.log == old(lib.log) + ObtainRun(au, config, ak, lib.answers).calls
    ensures r == ObtainRun(au, config, ak, lib.answers).outcome
  {
    var u := lib.GetUser(au, true);
    if u.Failure? {
      return Err(u.error);
    }
    var myUser := u.value;
    var failure := SetupClient(lib, myUser, config, ak);
    if failure.Some? {
      return Fatal(Library(failure.value));
    }
    var reg := lib.Register();
    if reg.Failure? {
      return Fatal(Library(reg.error));
    }
    myUser := myUser.(registration := reg.value);
    lib.SaveResourceAndPrivateKey(myUser.privateKey, reg.value);
    var request := ObtainRequest(ObtainDomains, true, None, false);
    var certificates := lib.Obtain(myUser.registration, request);
    if certificates.Failure? {
      return Fatal(Library(certificates.error));
    }
    r := Ok(StoredCertificate(certificates.value));
  }

  method RenewCertificate(lib: LegoLibrary, au: AcmeUser, config: DomainConfig, ak: AccessKey, data: Certificate, now: int)
    returns (r: Outcome<Certificate>)
    modifies lib
    ensures lib.log == old(lib.log) + RenewRun(au, config, ak, data, now, lib.answers).calls
    ensures r == RenewRun(au, config, ak, data, now, lib.answers).outcome
  {
    var domain := config.domain;
    var certificates := lib.ParsePemBundle(data.certificate);
    if certificates.Failure? {
      return Fatal(Library(certificates.error));
    }
    if |certificates.value| == 0 {
      // indexing the empty bundle panics
      return Fatal(EmptyBundle);
    }
    var cert := certificates.value[0];
    var due := NeedRenewal(cert, domain, config.defaultRenewDay, now);
    if due.Fatal? {
      return Fatal(due.reason);
    }
    if !due.value {
      return Err(NotDue);
    }
    r := RenewWhenDue(lib, au, config, ak, data, cert);
  }

  /** The steps of RenewCertificate after the decision to renew. */
  method RenewWhenDue(lib: LegoLibrary, au: AcmeUser, config: DomainConfig, ak: AccessKey, data: Certificate, cert: X509Cert)
    returns (r: Outcome<Certificate>)
    modifies lib
    ensures lib.log == old(lib.log) + RenewDueRun(au, config, ak, data, cert, lib.answers).calls
    ensures r == RenewDueRun(au, config, ak, data, cert, lib.answers).outcome
  {
    var privateKey: PrivateKey;
    if config.HasReuseKey() {
      var k := lib.ParsePemPrivateKey(data.privateKey);
      if k.Failure? {
        return Err(Library(k.error));
      }
      privateKey := k.value;
    } else {
      var k := lib.GenerateKey();
      if k.Failure? {
        return Fatal(Library(k.error));
      }
      privateKey := k.value;
    }
    var request := ObtainRequest(cert.domains, config.HasBundle(), Some(privateKey), config.HasMustStaple());
    var u := lib.GetUser(au, false);
    if u.Failure? {
      return Err(u.error);
    }
    var myUser := u.value;
    var failure := SetupClient(lib, myUser, config, ak);
    if failure.Some? {
      return Fatal(Library(failure.value));
    }
    var certRes := lib.Obtain(myUser.registration, request);
    if certRes.Failure? {
      return Fatal(Library(certRes.error));
    }
    r := Ok(StoredCertificate(certRes.value));
  }

  /** `config` is accepted and unused, as in the source. */
  method RevokeCertificate(lib: LegoLibrary, au: AcmeUser, config: DomainConfig, data: Certificate) returns (r: Outcome<()>)
    modifies lib
    ensures lib.log == old(lib.log) + RevokeRun(au, data, lib.answers).calls
    ensures r == RevokeRun(au, data, lib.answers).outcome
  {
    var u := lib.GetUser(au, false);
    if u.Failure? {
      return Err(u.error);
    }
    var client := lib.NewClient(NewConfig(u.value));
    if client.Failure? {
      return Fatal(Library(client.error));
    }
    var revoked := lib.Revoke(data.certificate);
    if revoked.Failure? {
      return Fatal(Library(revoked.error));
    }
    r := Ok(());
  }
}
