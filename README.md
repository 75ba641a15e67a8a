# goautocert core in Dafny

goautocert obtains, renews and revokes Let's Encrypt certificates over the
ACME DNS-01 challenge (with Alibaba Cloud DNS as the provider) and pushes
issued certificates to Aliyun server load balancers (SLB). This project
models the decision logic and the call sequences of that core and proves
what they promise:

- `models.dfy` (module `Models`): the stored records, and the `Bool` flag
  type of a domain configuration. `False` is 0 and `True` is 2. The
  `HasReuseKey`/`HasBundle`/`HasMustStaple` predicates compare against `True`.
- `alidns.dfy` (module `Alidns`): the DNS provider configuration built from
  an access key. It is validated before a provider is constructed.
- `lego.dfy` (module `Lego`): the renewal decision (`needRenewal`), how a
  stored account becomes an ACME identity (`getUserByAcmeUser`), the
  domain-list merge, and the Obtain, Renew and Revoke sequences.
- `slb.dfy` (module `Slb`): the load-balancer synchronizer
  `UpCertificate2AliyunSLB`. It scans the certificate inventory, stops while
  the domain's certificate is still valid, and otherwise deletes, uploads,
  creates or updates the HTTPS listener and starts it.
- `common.dfy` (module `Common`): `Option`, `Result`, the error kinds, and
  the three ways a flow ends. A flow returns a value (`Ok`), returns an
  error (`Err`), or stops the process through `log.Fatal` (`Fatal`).

The ACME library, the crypto and PEM helpers and the Aliyun SDK are
modelled as objects. `Lego.LegoLibrary` answers every call from answers
fixed up front and appends the call to a log. `Slb.SdkClient` holds the
remote inventory, the one listener at the configured port, a call log, and
a failure to inject per call. Each flow is an imperative method proved
equal to a specification function. That function returns the outcome and
the exact sequence of calls (`ObtainRun`, `RenewRun`, `RevokeRun`, `Sync`).
The lemmas state the promised properties of those functions.

Where the documented behaviour and the code differ, the model follows the
code:
- Obtain requests the fixed domain list `["*.scweiqu.com"]`, not the
  configured domains.
- The delete request of the synchronizer never carries the certificate id.
  It is modelled as a logged call that removes nothing.
- The days left before expiry are truncated toward zero (Go's float-to-int
  conversion), not floored. `Lego.FloorGivesSameDecision` shows that the
  decision is the same either way.
- A CA leaf and every failure of the ACME client (client creation, DNS
  provider, registration, issuance, revocation) stop the process through
  `log.Fatal` instead of returning an error. The model has them as `Fatal`.
- The bundle parser is an oracle, and it may answer an empty list. Renew
  would then index that empty list and panic. This is modelled as
  `Fatal(EmptyBundle)`. With lego's own parser the branch is unreachable,
  because it reports an error when it finds no certificate; that ends at the
  `log.Fatalf` after the parse, which is `Fatal` too.
- The stored account key is read with the certificate-bundle parser, and the
  model keeps this (`BundleAsKey`). The account is saved as a private-key
  PEM, which holds no certificate block. So with lego's parser, identity
  resolution for a stored key, and with it every Renew and Revoke of an
  account that Obtain saved, gets a parse error. In the model this is the
  parser oracle answering `Failure`, and `Lego.StoredKeyTakesPrecedence`
  states what follows from that.

## Model

| member | source | states |
|---|---|---|
| Models.BoolConstants | internal/models/domain_config.go:8-13 | `False` is 0 and `True` is 2 (`iota + 1` on the second line), so `True` is neither 1 nor `False` |
| Models.FlagsHoldOnlyAtTwo | internal/models/domain_config.go:48-58 | each of `HasReuseKey`, `HasBundle`, `HasMustStaple` holds exactly when its column stores 2 |
| Models.DefaultAndOneDisableFlags | internal/models/domain_config.go:29-31 | a row left at the column default 0, or storing 1, enables none of the three policies |
| Models.DomainConfig.HasReuseKey | internal/models/domain_config.go:48-50 | no contract of its own: the `== True` test of the reuse-key column; `Models.FlagsHoldOnlyAtTwo` and `Models.DefaultAndOneDisableFlags` state its meaning |
| Models.DomainConfig.HasBundle | internal/models/domain_config.go:52-54 | no contract of its own: the `== True` test of the bundle column; `Models.FlagsHoldOnlyAtTwo` and `Models.DefaultAndOneDisableFlags` state its meaning |
| Models.DomainConfig.HasMustStaple | internal/models/domain_config.go:56-58 | no contract of its own: the `== True` test of the must-staple column; `Models.FlagsHoldOnlyAtTwo` and `Models.DefaultAndOneDisableFlags` state its meaning |
| Alidns.MissingCredential | internal/modules/letsencrypt/alidns/alidns.go:15 | no contract of its own: the emptiness test on the key id and secret; `Alidns.GetAliyunNewDefaultConfig` states that it decides failure |
| Alidns.GetAliyunNewDefaultConfig | internal/modules/letsencrypt/alidns/alidns.go:9-19 | fails exactly when the key id or the secret is empty; otherwise carries both verbatim on top of the library defaults |
| Alidns.NewDNSProvider | internal/modules/letsencrypt/alidns/alidns.go:23-29 | a validation error is returned unchanged; a valid configuration yields exactly what the library constructor returns for it |
| Alidns.ValidationErrorSkipsConstructor | internal/modules/letsencrypt/alidns/alidns.go:23-29 | with invalid credentials the result does not depend on the library constructor |
| Lego.TruncatedDiv | internal/modules/letsencrypt/lego.go:271 | the quotient truncated toward zero: bounds for non-negative and for negative dividends |
| Lego.DaysRemaining | internal/modules/letsencrypt/lego.go:271 | no contract of its own: whole days left, truncated toward zero through `Lego.TruncatedDiv`; `Lego.NeedRenewalClosedForm` and `Lego.FloorGivesSameDecision` state what it decides |
| Lego.NeedRenewal | internal/modules/letsencrypt/lego.go:265-280 | the decision is a boolean or a process stop, never a returned error |
| Lego.CaCertificateIsFatal | internal/modules/letsencrypt/lego.go:266-268 | a CA certificate stops the process whatever the threshold and time |
| Lego.NegativeThresholdAlwaysRenews | internal/modules/letsencrypt/lego.go:270-279 | a negative threshold always renews |
| Lego.NeedRenewalClosedForm | internal/modules/letsencrypt/lego.go:270-279 | with a threshold of `days >= 0`, renewal is skipped exactly when at least `days + 1` full days are left |
| Lego.ExpiredCertificateRenews | internal/modules/letsencrypt/lego.go:265-280 | a non-CA certificate past its NotAfter always renews |
| Lego.FloorGivesSameDecision | internal/modules/letsencrypt/lego.go:271-272 | truncation and floor division of the remaining time give the same decision |
| Lego.Merged | internal/modules/letsencrypt/lego.go:281-295 | no contract of its own: the specification of merge; `Lego.MergedKeepsPrefix`, `Lego.MergedMembers` and `Lego.MergedAppendsInOrder` state its properties, and `Lego.Merge` is proved equal to it |
| Lego.MergedKeepsPrefix | internal/modules/letsencrypt/lego.go:281-295 | the first list is kept unchanged as a prefix of the merge |
| Lego.MergedMembers | internal/modules/letsencrypt/lego.go:281-295 | the merge holds exactly the elements of both lists |
| Lego.MergedAppendsInOrder | internal/modules/letsencrypt/lego.go:281-295 | appended elements come from the second list, are new, distinct, and keep their first-occurrence order |
| Lego.Merge | internal/modules/letsencrypt/lego.go:281-295 | the nested loop with its `found` flag computes the merge: prefix kept, union of members |
| Lego.IdentitySourceOf | internal/modules/letsencrypt/lego.go:43-62 | no contract of its own: the four-way case analysis (stored key, fresh key for a new user, stored resource, missing resource) in the order of the source; `Lego.StoredKeyTakesPrecedence`, `Lego.NewUserGetsFreshKey` and `Lego.ExistingUserNeedsResource` state what each case means |
| Lego.IdentityCalls | internal/modules/letsencrypt/lego.go:43-62 | no contract of its own: the library calls identity resolution makes (the bundle parse at line 44, the key generation at line 50, the unmarshal at line 56, none when the resource is missing); `Lego.StoredKeyTakesPrecedence`, `Lego.NewUserGetsFreshKey` and `Lego.ExistingUserNeedsResource` state them case by case |
| Lego.GetUserByAcmeUser | internal/modules/letsencrypt/lego.go:40-65 | a resolved identity keeps the account record; it has no key exactly when it came from the stored registration resource |
| Lego.StoredKeyTakesPrecedence | internal/modules/letsencrypt/lego.go:43-47 | a stored key wins over `newUser`: only the bundle parse is called, the resource is never read, the registration is the zero value |
| Lego.NewUserGetsFreshKey | internal/modules/letsencrypt/lego.go:48-53 | without a stored key a new user gets a generated key and the zero registration |
| Lego.ExistingUserNeedsResource | internal/modules/letsencrypt/lego.go:54-62 | without a stored key an existing user's empty resource is the missing-account error with no call; a present one is unmarshalled |
| Lego.LegoLibrary.GetUser | internal/modules/letsencrypt/lego.go:40-65 | logs the calls identity resolution makes and answers its result |
| Lego.NewConfig | internal/modules/letsencrypt/lego.go:66-74 | no contract of its own: the client configuration with the staging directory URL and RSA-2048 keys; it is logged by every client creation |
| Lego.StoredCertificate | internal/modules/letsencrypt/lego.go:138-145 | no contract of its own: the record copied field by field from an issued certificate (also lego.go:229-236); `Lego.SuccessOnlyFromIssuance` states that every success returns it |
| Lego.ClientSetup | internal/modules/letsencrypt/lego.go:84-100 | no contract of its own: the specification of client creation, DNS provider construction and installation; `Lego.SetupClient` is proved against it |
| Lego.IssueRun | internal/modules/letsencrypt/lego.go:129-146 | no contract of its own: the issuance call ending Obtain and Renew (also lego.go:224-236), fatal on failure; `Lego.SuccessOnlyFromIssuance` states its properties |
| Lego.ObtainRun | internal/modules/letsencrypt/lego.go:77-147 | no contract of its own: the specification of Obtain; `Lego.ObtainSavesAccountBeforeIssuing`, `Lego.ObtainWithoutStoredKeySavesFreshKey` and `Lego.SuccessOnlyFromIssuance` state its properties |
| Lego.RenewRun | internal/modules/letsencrypt/lego.go:154-239 | no contract of its own: the specification of Renew; `Lego.RenewNotDueBeforeAnyWork`, `Lego.RenewWorkOnlyWhenDue`, `Lego.RenewRequestShape`, `Lego.RenewKeyParseErrorIsReturned` and `Lego.SuccessOnlyFromIssuance` state its properties |
| Lego.RenewDueRun | internal/modules/letsencrypt/lego.go:176-237 | no contract of its own: the specification of Renew after the decision to renew; `Lego.RenewRequestShape` and `Lego.RenewKeyParseErrorIsReturned` state its properties |
| Lego.RevokeRun | internal/modules/letsencrypt/lego.go:242-263 | no contract of its own: the specification of Revoke; `Lego.RevokeOutcome` states its properties |
| Lego.SetupClient | internal/modules/letsencrypt/lego.go:84-100 | client creation, DNS provider construction and installation run in order and stop at the first failure |
| Lego.ObtainCertificate | internal/modules/letsencrypt/lego.go:77-147 | the calls made and the outcome are those of `ObtainRun` |
| Lego.RenewCertificate | internal/modules/letsencrypt/lego.go:154-239 | the calls made and the outcome are those of `RenewRun` |
| Lego.RenewWhenDue | internal/modules/letsencrypt/lego.go:176-237 | the steps after the decision to renew make the calls and give the outcome of `RenewDueRun` |
| Lego.RevokeCertificate | internal/modules/letsencrypt/lego.go:242-263 | the calls made and the outcome are those of `RevokeRun`; the configuration is unused |
| Lego.RenewNotDueBeforeAnyWork | internal/modules/letsencrypt/lego.go:160-170 | Renew answers "not due" exactly when the leaf has more than the threshold left, and then only parsed the bundle |
| Lego.RenewWorkOnlyWhenDue | internal/modules/letsencrypt/lego.go:160-170 | any call after the bundle parse implies the leaf parsed and renewal was due |
| Lego.RenewRequestShape | internal/modules/letsencrypt/lego.go:176-196 | the renewal request covers the leaf's domains, takes bundle and must-staple from the configuration, and the reused or fresh key |
| Lego.RenewKeyParseErrorIsReturned | internal/modules/letsencrypt/lego.go:179-182 | with key reuse, an unreadable stored key is a returned error after exactly two calls |
| Lego.ObtainSavesAccountBeforeIssuing | internal/modules/letsencrypt/lego.go:116-133 | issuance is the last call, right after registration and saving the account with the registration just returned; the request is the fixed domain list with bundling |
| Lego.ObtainWithoutStoredKeySavesFreshKey | internal/modules/letsencrypt/lego.go:78-123 | without a stored key Obtain generates a key first, and the saved account carries it |
| Lego.SuccessOnlyFromIssuance | internal/modules/letsencrypt/lego.go:129-146 | Obtain and Renew succeed only with the certificate issued on their last call |
| Lego.RevokeOutcome | internal/modules/letsencrypt/lego.go:246-262 | Revoke succeeds exactly when identity, client and revocation succeed; a refused revocation stops the process |
| Slb.SdkClient.Connect | internal/modules/letsencrypt/slb.go:13 | logs the client creation with region and key id, answers the injected failure, and changes neither inventory nor listener |
| Slb.SdkClient.DescribeServerCertificates | internal/modules/letsencrypt/slb.go:210-221 | logs the query and answers the whole inventory, or the injected failure; nothing changes |
| Slb.SdkClient.DescribeLoadBalancerHTTPSListenerAttribute | internal/modules/letsencrypt/slb.go:158-166 | logs the query and answers the listener's status, InvalidParameter when there is none, or the injected failure; nothing changes |
| Slb.SdkClient.CreateLoadBalancerHTTPSListener | internal/modules/letsencrypt/slb.go:182-207 | logs the request; on success the listener is the requested one, stopped; on failure nothing changes |
| Slb.SdkClient.SetLoadBalancerHTTPSListenerAttribute | internal/modules/letsencrypt/slb.go:91-106 | logs the request; on success only the listener's certificate id changes; on failure nothing changes |
| Slb.SdkClient.StartLoadBalancerListener | internal/modules/letsencrypt/slb.go:109-124 | logs the request; when started the listener's status is "running", otherwise nothing changes |
| Slb.SdkClient.DeleteServerCertificate | internal/modules/letsencrypt/slb.go:144-155 | the delete request names no certificate: it is logged and removes nothing |
| Slb.SdkClient.UploadServerCertificate | internal/modules/letsencrypt/slb.go:127-141 | a successful upload adds one entry, at the end of the inventory, and returns its id; a failed one changes nothing |
| Slb.UploadRequestFor | internal/modules/letsencrypt/slb.go:127-134 | the upload carries the leaf and key PEM and is named after the domain |
| Slb.HttpsListenerSettings | internal/modules/letsencrypt/slb.go:192-197 | no contract of its own: the fixed listener settings; `Slb.CreatedListenerDefaults` states them for every create request |
| Slb.ListenerStatus | internal/modules/letsencrypt/slb.go:158-179 | an InvalidParameter server error reads as status "" without error; any other error is returned; a success gives the status |
| Slb.ListenerAbsentMapping | internal/modules/letsencrypt/slb.go:166-175 | the listener reads as absent exactly on InvalidParameter or an empty status |
| Slb.StartError | internal/modules/letsencrypt/slb.go:109-124 | starting fails exactly when the SDK errs or the response is not a success |
| Slb.FirstMatch | internal/modules/letsencrypt/slb.go:27-45 | the first entry, in inventory order, listing the domain among its SANs |
| Slb.ScanInventory | internal/modules/letsencrypt/slb.go:27-45 | the nested scan finds exactly the first matching entry, with its id and expiry |
| Slb.LaterMatchesIgnored | internal/modules/letsencrypt/slb.go:27-43 | entries after the first match never change it |
| Slb.AppendedEntryMatches | internal/modules/letsencrypt/slb.go:27-43 | an entry appended to an inventory without a match becomes the match |
| Slb.StillValid | internal/modules/letsencrypt/slb.go:34-36 | no contract of its own: the validity test as written; `Slb.ExpiringNowPassesAsWritten` and `Slb.ExpiredYesterdayPassesAsWritten` show that it accepts expired entries, and `Slb.ShortCircuitIffStillValid` states its role in the run |
| Slb.Sync | internal/modules/letsencrypt/slb.go:12-88 | no contract of its own: the specification of the synchronization; `Slb.UpCertificate2AliyunSLB` is proved against it and the lemmas below state its properties |
| Slb.Attach | internal/modules/letsencrypt/slb.go:62-87 | no contract of its own: the specification of the listener steps; `Slb.AttachListener` is proved against it, and `Slb.AttachCallsAreListenerCalls`, `Slb.CreateOnlyWhenAbsent` and `Slb.StartOnlyWhenNotRunning` state its properties |
| Slb.UpCertificate2AliyunSLB | internal/modules/letsencrypt/slb.go:12-88 | the error, the remote inventory and listener afterwards, and the calls made are those of `Sync` |
| Slb.AttachListener | internal/modules/letsencrypt/slb.go:62-87 | the listener steps give the error, listener and calls of `Attach` and leave the inventory alone |
| Slb.AttachCallsAreListenerCalls | internal/modules/letsencrypt/slb.go:62-87 | after the upload only listener calls happen, the query first, each carrying the uploaded id |
| Slb.SyncCallsWithin | internal/modules/letsencrypt/slb.go:12-88 | every call of a run has one of the fixed shapes or is a listener call |
| Slb.ShortCircuitIffStillValid | internal/modules/letsencrypt/slb.go:23-38 | the run stops with "domain still valid" exactly when the first match passes the validity test, after only the client and inventory calls and with nothing changed |
| Slb.NonEmptyInventoryDeletesOnce | internal/modules/letsencrypt/slb.go:46-60 | a non-empty inventory that does not stop early gets exactly one delete, matched or not; a failed delete ends the run before the upload, and a successful one is followed by the upload named after the domain |
| Slb.EmptyInventoryUploadsWithoutDelete | internal/modules/letsencrypt/slb.go:18-60 | an empty inventory is never deleted from: the upload follows the inventory query |
| Slb.UploadedIdReachesListener | internal/modules/letsencrypt/slb.go:55-76 | every upload is named after the domain; every listener create or update carries the id the upload returned |
| Slb.CreatedListenerDefaults | internal/modules/letsencrypt/slb.go:182-197 | a created listener has bandwidth -1, sticky session "on" of type "insert", cookie timeout 86400, health check "off" and the record's backend port |
| Slb.CreateOnlyWhenAbsent | internal/modules/letsencrypt/slb.go:66-76 | an absent listener is created with the uploaded id; an existing one only has its certificate id set |
| Slb.StartOnlyWhenNotRunning | internal/modules/letsencrypt/slb.go:78-85 | the listener is started exactly when the status read before was not "running", so always after a create |
| Slb.SuccessfulSyncConverges | internal/modules/letsencrypt/slb.go:55-87 | success leaves a running listener serving the uploaded certificate, and the inventory grown by exactly that entry |
| Slb.ResyncShortCircuits | internal/modules/letsencrypt/slb.go:27-38 | after a success on an inventory without the domain, a later run stops early while the uploaded certificate passes the validity test |
| Slb.StaleEntryBlocksShortCircuit | internal/modules/letsencrypt/slb.go:46-51 | since delete removes nothing, a stale first match stays first when entries are appended after it, so, as long as the service lists the stale entry before the new ones, no later run stops early |
| Slb.StillValidMillis | internal/modules/letsencrypt/slb.go:34-36 | the validity test in milliseconds never accepts an expired entry |
| Slb.StillValidMillisInSeconds | internal/modules/letsencrypt/slb.go:34-36 | on a whole-second expiry the millisecond test means "more than `days` days left" |
| Slb.ExpiringNowPassesAsWritten | internal/modules/letsencrypt/slb.go:34-36 | as written, an entry expiring this very second passes as still valid |
| Slb.ExpiredYesterdayPassesAsWritten | internal/modules/letsencrypt/slb.go:34-36 | as written, an entry that expired a day ago passes as still valid |

## Left out

- Storage: the create, update, delete, find and list operations of every
  record are database plumbing. The records are plain datatypes.
- `SaveResourceAndPrivateKey` only encodes and stores the account. Obtain
  discards its error, so it is modelled as a logged call.
- `param.go` only holds JSON wrappers and validations that always pass.
- Cryptography, PEM, X.509 and JSON parsing, and every call into the ACME
  library (`NewClient`, `Register`, `Obtain`, `Revoke`, `SetDNS01Provider`)
  are oracles with answers fixed up front. `ExtractDomains` is the
  `domains` field of a parsed certificate.
- `newDNSChallengeProviderByName` is not part of this model. It is an oracle
  that is logged with the provider name and key id.
- `newConfig` keeps only its two constants (staging directory URL, RSA-2048).
- Log output, `fmt.Print` and the Aliyun request and response structs are
  not modelled. Client construction is reduced to a logged call that can fail.
- The wall clock is a parameter `now` in Unix seconds.
- Lego.NeedRenewal: works on integer seconds, not on the float hours that
  `time.Until(...).Hours()` gives. It does not model the saturation of
  `time.Until` at the limits of a 64-bit duration.
- Lego.Merge: works on sequences. It does not model the aliasing of Go's
  in-place `append` on the caller's slice.
- Slb.SdkClient: an upload adds its entry at the end of the inventory. The
  order in which the service lists its certificates is not modelled.
- Slb.SdkClient: holds one listener, the one at the configured port and
  balancer. The port and balancer id of a request are logged but not matched.
  The SDK's own pagination and regions are not modelled.
- Slb.UpCertificate2AliyunSLB: keeps the validity test as written, so that it
  models the code. The corrected test is `Slb.StillValidMillis`.
- Go's `log.Fatal` ends the process. It is modelled as the `Fatal` outcome,
  and the statements after it in the source are unreachable.

## Findings

| source | as written | input that shows it | evidently intended | confidence | as-written member | corrected member |
|---|---|---|---|---|---|---|
| internal/modules/letsencrypt/slb.go:34-36 | `ExpireTimeStamp - now.Unix()*100 > 86400*DefaultRenewDay`: the SDK's expiry timestamp, in milliseconds, is compared with the current time in seconds times 100 and a threshold in seconds | `now = 1700000000`, `ExpireTimeStamp = (now - 86400) * 1000` (expired a day ago), `DefaultRenewDay = 90`: the entry counts as still valid, so no new certificate is uploaded | `ExpireTimeStamp - now*1000 > 86400*1000*DefaultRenewDay` | medium, not executed: the millisecond unit is the SDK's convention, which is outside this model | Slb.ExpiringNowPassesAsWritten | Slb.StillValidMillis |
