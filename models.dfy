/** The stored records this core reads (account, domain configuration,
    access key, certificate, load balancer) and the `Bool` flag encoding of
    the domain configuration. Storage itself is not modelled. */
module Models {

  /** Go's `Bool int8`: the flag columns are tiny integers, not booleans. */
  newtype Bool = x: int | -128 <= x < 128

  /** In a Go const block `iota` is the line index: 0 on the first line and
      1 on the second, where `True` is declared as `iota + 1`. */
  const False: Bool := 0
  const True: Bool := 1 + 1

  /** The database default of every flag column (`tinyint notnull default 0`). */
  const FlagColumnDefault: Bool := 0

  /** A domain configuration: space-separated domain patterns, the DNS
      provider's name, the renewal threshold in days and three policy flags. */
  datatype DomainConfig = DomainConfig(
    id: int,
    domain: string,
    providerName: string,
    defaultRenewDay: int,
    reuseKey: Bool,
    bundle: Bool,
    mustStaple: Bool)
  {
    /** Reuse the certificate's private key on renewal. */
    predicate HasReuseKey() { reuseKey == True }

    /** Ask for the issuer chain to be bundled with the certificate. */
    predicate HasBundle() { bundle == True }

    /** Ask for the OCSP must-staple extension. */
    predicate HasMustStaple() { mustStaple == True }
  }

  /** An Aliyun access key pair. */
  datatype AccessKey = AccessKey(id: int, accessKeyId: string, accessKeySecret: string, remark: string)

  /** A stored ACME account: the PEM private key and the JSON registration
      resource are both empty until the first registration is saved. */
  datatype AcmeUser = AcmeUser(id: int, email: string, privateKey: string, resource: string)

  /** An issued certificate as stored: URLs, leaf and issuer PEM, key PEM. */
  datatype Certificate = Certificate(
    id: int,
    domain: string,
    certUrl: string,
    certStableUrl: string,
    certificate: string,
    issuerCertificate: string,
    privateKey: string)

  /** The part of an Aliyun server load balancer this tool manages. */
  datatype AliyunSlb = AliyunSlb(
    id: int,
    regionId: string,
    loadBalancerId: string,
    listenerPort: int,
    backendServerPort: int)

  /** `True` is 2, not 1, and differs from `False`. */
  lemma BoolConstants()
    ensures False as int == 0 && True as int == 2
    ensures True != 1 && True != False
  {
  }

  /** Each policy predicate holds exactly when its column stores 2. */
  lemma FlagsHoldOnlyAtTwo(c: DomainConfig)
    ensures c.HasReuseKey() <==> c.reuseKey as int == 2
    ensures c.HasBundle() <==> c.bundle as int == 2
    ensures c.HasMustStaple() <==> c.mustStaple as int == 2
  {
  }

  /** A row left at the column default, or one whose flags were stored as 1
      (the usual encoding of "true"), enables none of the three policies. */
  lemma DefaultAndOneDisableFlags(c: DomainConfig)
    requires c.reuseKey == FlagColumnDefault || c.reuseKey == 1
    requires c.bundle == FlagColumnDefault || c.bundle == 1
    requires c.mustStaple == FlagColumnDefault || c.mustStaple == 1
    ensures !c.HasReuseKey() && !c.HasBundle() && !c.HasMustStaple()
  {
  }
}
