/** The Alibaba Cloud DNS challenge provider: the access key is copied into
    the library's configuration and checked before a provider is built. */
module Alidns {
  import opened Common
  import opened Models

  /** The library's defaults (read from the environment by
      `NewDefaultConfig`); this core never inspects them. */
  datatype Defaults = Defaults(regionId: string, ttl: int, propagationTimeout: int, pollingInterval: int, httpTimeout: int)

  /** The DNS provider configuration handed to the library. */
  datatype Config = Config(apiKey: string, secretKey: string, defaults: Defaults)

  /** A constructed provider, opaque to this core. */
  datatype DnsProvider = DnsProvider(config: Config)

  /** True when the key pair cannot authenticate at all. */
  predicate MissingCredential(c: AccessKey)
  {
    |c.accessKeyId| == 0 || |c.accessKeySecret| == 0
  }

  /** Builds the provider configuration from an access key: fails exactly
      when the id or the secret is empty, and otherwise carries both verbatim
      on top of the library defaults. */
  function GetAliyunNewDefaultConfig(c: AccessKey, defaults: Defaults): (r: Result<Config, Error>)
    ensures r.Failure? <==> MissingCredential(c)
    ensures r.Failure? ==> r.error == InvalidCredentials
    ensures r.Success? ==> r.value.apiKey == c.accessKeyId && r.value.secretKey == c.accessKeySecret
    ensures r.Success? ==> r.value.defaults == defaults
  {
    var config := Config(c.accessKeyId, c.accessKeySecret, defaults);
    if |config.apiKey| == 0 || |config.secretKey| == 0 then Failure(InvalidCredentials)
    else Success(config)
  }

  /** Builds the provider: a validation error is returned as it is, and only
      a valid configuration reaches the library constructor `construct`. */
  function NewDNSProvider(c: AccessKey, defaults: Defaults, construct: Config -> Result<DnsProvider, Error>): (r: Result<DnsProvider, Error>)
    ensures MissingCredential(c) ==> r == Failure(InvalidCredentials)
    ensures !MissingCredential(c) ==> r == construct(Config(c.accessKeyId, c.accessKeySecret, defaults))
  {
    match GetAliyunNewDefaultConfig(c, defaults)
    case Failure(e) => Failure(e)
    case Success(config) => construct(config)
  }

  /** On invalid credentials the result does not depend on the constructor
      at all: it was never called. */
  lemma ValidationErrorSkipsConstructor(c: AccessKey, defaults: Defaults,
                                        k1: Config -> Result<DnsProvider, Error>,
                                        k2: Config -> Result<DnsProvider, Error>)
    requires MissingCredential(c)
    ensures NewDNSProvider(c, defaults, k1) == NewDNSProvider(c, defaults, k2)
  {
  }
}
