/** The Aliyun load-balancer synchronizer: find the domain's certificate in
    the remote inventory, stop if it is still valid, otherwise delete,
    upload, attach the new certificate to the HTTPS listener (creating the
    listener when absent) and start the listener when it is not running.
    The remote side is an `SdkClient` object holding the inventory, the one
    listener at the configured port, a call log, and a failure to inject per
    call. */
module Slb {
  import opened Common
  import opened Models

  // ---------------------------------------------------------------------
  // Remote state and requests
  // ---------------------------------------------------------------------

  /** One certificate of the remote inventory: its id, its subject
      alternative names and its expiry timestamp as the SDK reports it. */
  datatype Entry = Entry(id: string, sans: seq<string>, expire: int)

  /** The listener attributes a create request sets besides port, balancer
      and certificate. */
  datatype ListenerSettings = ListenerSettings(
    backendServerPort: int,
    bandwidth: int,
    stickySession: string,
    stickySessionType: string,
    cookieTimeout: int,
    healthCheck: string)

  /** The HTTPS listener at the configured port: its status, the attached
      certificate id and its settings. */
  datatype Listener = Listener(status: string, certId: string, settings: ListenerSettings)

  datatype UploadRequest = UploadRequest(serverCertificate: string, privateKey: string, name: string)

  datatype CreateListenerRequest = CreateListenerRequest(
    port: int, loadBalancerId: string, serverCertificateId: string, settings: ListenerSettings)

  /** One SDK call, as logged. The delete request carries no certificate id:
      the request is sent without one. */
  datatype SlbCall =
    | ClientCreated(regionId: string, accessKeyId: string)
    | CertificatesDescribed
    | DeleteRequested
    | UploadRequested(upload: UploadRequest)
    | ListenerDescribed(port: int, loadBalancerId: string)
    | ListenerCreateRequested(create: CreateListenerRequest)
    | ListenerCertificateSet(port: int, loadBalancerId: string, certId: string)
    | ListenerStartRequested(port: int, loadBalancerId: string)

  /** The answer to a start request: success, an SDK error, or a response
      that is not a success (with its body). */
  datatype StartAnswer = Started | StartError(error: SdkError) | StartRejected(body: string)

  /** What the remote reads out of an uploaded certificate. */
  datatype PemInfo = PemInfo(sans: seq<string>, expire: int)

  /** The remote's fixed behaviour: the failure injected into each call (None
      means the call succeeds), the id the next upload is given, and what the
      remote reads from an uploaded PEM. */
  datatype Behaviour = Behaviour(
    newClient: Option<SdkError>,
    describeCertificates: Option<SdkError>,
    delete: Option<SdkError>,
    upload: Option<SdkError>,
    describeListener: Option<SdkError>,
    create: Option<SdkError>,
    setCertificate: Option<SdkError>,
    start: StartAnswer,
    assignedId: string,
    readPem: string -> PemInfo)

  /** The error code with which the service reports a listener it cannot find. */
  const InvalidParameter := "InvalidParameter"

  /** The inventory entry an upload adds. */
  function UploadedEntry(b: Behaviour, request: UploadRequest): Entry
  {
    Entry(b.assignedId, b.readPem(request.serverCertificate).sans, b.readPem(request.serverCertificate).expire)
  }

  /** The SDK's raw answer to a listener query. */
  function ListenerQuery(listener: Option<Listener>, fault: Option<SdkError>): Result<string, SdkError>
  {
    if fault.Some? then Failure(fault.value)
    else if listener.None? then Failure(ServerError(InvalidParameter))
    else Success(listener.value.status)
  }

  /** The listener a create request makes: stopped until started. */
  function CreatedListener(request: CreateListenerRequest): Listener
  {
    Listener("stopped", request.serverCertificateId, request.settings)
  }

  function WithCertificate(listener: Option<Listener>, certId: string): Option<Listener>
  {
    if listener.Some? then Some(listener.value.(certId := certId)) else None
  }

  function Running(listener: Option<Listener>): Option<Listener>
  {
    if listener.Some? then Some(listener.value.(status := "running")) else None
  }

  // ---------------------------------------------------------------------
  // The SDK client
  // ---------------------------------------------------------------------

  class SdkClient {
    const behaviour: Behaviour
    var certs: seq<Entry>
    var listener: Option<Listener>
    var log: seq<SlbCall>

    constructor (behaviour: Behaviour, certs: seq<Entry>, listener: Option<Listener>)
      ensures this.behaviour == behaviour && this.certs == certs && this.listener == listener && log == []
    {
      this.behaviour := behaviour;
      this.certs := certs;
      this.listener := listener;
      log := [];
    }

    /** slb.NewClientWithAccessKey. */
    method Connect(regionId: string, accessKeyId: string, accessKeySecret: string) returns (err: Option<SdkError>)
      modifies this
      ensures log == old(log) + [ClientCreated(regionId, accessKeyId)]
      ensures certs == old(certs) && listener == old(listener)
      ensures err == behaviour.newClient
    {
      log := log + [ClientCreated(regionId, accessKeyId)];
      err := behaviour.newClient;
    }

    method DescribeServerCertificates() returns (r: Result<seq<Entry>, SdkError>)
      modifies this
      ensures log == old(log) + [CertificatesDescribed]
      ensures certs == old(certs) && listener == old(listener)
      ensures r == if behaviour.describeCertificates.Some? then Failure(behaviour.describeCertificates.value) else Success(certs)
    {
      log := log + [CertificatesDescribed];
      if behaviour.describeCertificates.Some? {
        r := Failure(behaviour.describeCertificates.value);
      } else {
        r := Success(certs);
      }
    }

    /** A delete request without a certificate id: it is logged and removes
      nothing. */
    method DeleteServerCertificate() returns (err: Option<SdkError>)
      modifies this
      ensures log == old(log) + [DeleteRequested]
      ensures certs == old(certs) && listener == old(listener)
      ensures err == behaviour.delete
    {
      log := log + [DeleteRequested];
      err := behaviour.delete;
    }

    method UploadServerCertificate(request: UploadRequest) returns (r: Result<string, SdkError>)
      modifies this
      ensures log == old(log) + [UploadRequested(request)]
      ensures listener == old(listener)
      ensures behaviour.upload.Some? ==> r == Failure(behaviour.upload.value) && certs == old(certs)
      ensures behaviour.upload.None? ==> r == Success(behaviour.assignedId) && certs == old(certs) + [UploadedEntry(behaviour, request)]
    {
      log := log + [UploadRequested(request)];
      if behaviour.upload.Some? {
        r := Failure(behaviour.upload.value);
      } else {
        certs := certs + [UploadedEntry(behaviour, request)];
        r := Success(behaviour.assignedId);
      }
    }

    method DescribeLoadBalancerHTTPSListenerAttribute(port: int, loadBalancerId: string) returns (r: Result<string, SdkError>)
      modifies this
      ensures log == old(log) + [ListenerDescribed(port, loadBalancerId)]
      ensures certs == old(certs) && listener == old(listener)
      ensures r == ListenerQuery(listener, behaviour.describeListener)
    {
      log := log + [ListenerDescribed(port, loadBalancerId)];
      r := ListenerQuery(listener, behaviour.describeListener);
    }

    method CreateLoadBalancerHTTPSListener(request: CreateListenerRequest) returns (err: Option<SdkError>)
      modifies this
      ensures log == old(log) + [ListenerCreateRequested(request)]
      ensures certs == old(certs)
      ensures err == behaviour.create
      ensures listener == if err.Some? then old(listener) else Some(CreatedListener(request))
    {
      log := log + [ListenerCreateRequested(request)];
      err := behaviour.create;
      if err.None? {
        listener := Some(CreatedListener(request));
      }
    }

    method SetLoadBalancerHTTPSListenerAttribute(port: int, loadBalancerId: string, certId: string) returns (err: Option<SdkError>)
      modifies this
      ensures log == old(log) + [ListenerCertificateSet(port, loadBalancerId, certId)]
      ensures certs == old(certs)
      ensures err == behaviour.setCertificate
      ensures listener == if err.Some? then old(listener) else WithCertificate(old(listener), certId)
    {
      log := log + [ListenerCertificateSet(port, loadBalancerId, certId)];
      err := behaviour.setCertificate;
      if err.None? {
        listener := WithCertificate(listener, certId);
      }
    }

    method StartLoadBalancerListener(port: int, loadBalancerId: string) returns (r: StartAnswer)
      modifies this
      ensures log == old(log) + [ListenerStartRequested(port, loadBalancerId)]
      ensures certs == old(certs)
      ensures r == behaviour.start
      ensures listener == if r.Started? then Running(old(listener)) else old(listener)
    {
      log := log + [ListenerStartRequested(port, loadBalancerId)];
      r := behaviour.start;
      if r.Started? {
        listener := Running(listener);
      }
    }
  }

  // ---------------------------------------------------------------------
  // Request building and answer mapping (the package's helpers)
  // ---------------------------------------------------------------------

  /** The upload request: the leaf and key PEM, named after the domain. */
  function UploadRequestFor(certificate: Certificate): (request: UploadRequest)
    ensures request.name == certificate.domain
    ensures request.serverCertificate == certificate.certificate && request.privateKey == certificate.privateKey
  {
    UploadRequest(certificate.certificate, certificate.privateKey, certificate.domain)
  }

  /** The fixed settings of a created listener: unlimited bandwidth, cookie
      insertion stickiness with a one-day cookie, no health check. */
  function HttpsListenerSettings(backendServerPort: int): ListenerSettings
  {
    ListenerSettings(backendServerPort, -1, "on", "insert", 86400, "off")
  }

  /** The status describeLoadBalancerHTTPSListenerAttribute reports: the
      service's InvalidParameter error means "absent" (the empty status)
      without error; any other error is returned. */
  function ListenerStatus(raw: Result<string, SdkError>): (r: Result<string, Error>)
    ensures raw == Failure(ServerError(InvalidParameter)) ==> r == Success("")
    ensures raw.Failure? && raw.error != ServerError(InvalidParameter) ==> r == Failure(Sdk(raw.error))
    ensures raw.Success? ==> r == Success(raw.value)
  {
    match raw
    case Failure(e) => if e.ServerError? && e.code == InvalidParameter then Success("") else Failure(Sdk(e))
    case Success(status) => Success(status)
  }

  /** What startLoadBalancerListener returns for an answer. */
  function StartError(answer: StartAnswer, port: int, loadBalancerId: string): (err: Option<Error>)
    ensures err.None? <==> answer.Started?
  {
    match answer
    case Started => None
    case StartError(e) => Some(Sdk(e))
    case StartRejected(body) => Some(ListenerStartFailed(port, loadBalancerId, body))
  }

  // ---------------------------------------------------------------------
  // The synchronization as a specification
  // ---------------------------------------------------------------------

  /** The index of the first inventory entry listing `domain` among its SANs. */
  function FirstMatch(cs: seq<Entry>, domain: string): (r: Option<nat>)
    ensures r.Some? ==> r.value < |cs| && domain in cs[r.value].sans
    ensures r.Some? ==> forall k :: 0 <= k < r.value ==> domain !in cs[k].sans
    ensures r.None? ==> forall k :: 0 <= k < |cs| ==> domain !in cs[k].sans
  {
    if |cs| == 0 then None
    else if domain in cs[0].sans then Some(0)
    else match FirstMatch(cs[1..], domain)
      case None => None
      case Some(i) => Some(i + 1)
  }

  /** The validity test as written: the SDK's expiry timestamp minus the
      current Unix time multiplied by 100, against the threshold in seconds. */
  function StillValid(expire: int, now: int, days: int): bool
  {
    expire - now * 100 > 86400 * days
  }

  /** The outcome of a synchronization: the error (None is success), the
      remote inventory and listener afterwards, and the SDK calls made. */
  datatype SyncResult = SyncResult(err: Option<Error>, certs: seq<Entry>, listener: Option<Listener>, calls: seq<SlbCall>)

  /** UpCertificate2AliyunSLB over the remote state `certs`/`listener`. */
  function Sync(certs: seq<Entry>, listener: Option<Listener>, b: Behaviour,
                key: AccessKey, config: DomainConfig, aslb: AliyunSlb, certificate: Certificate, now: int): SyncResult
  {
    var c0 := [ClientCreated(aslb.regionId, key.accessKeyId)];
    if b.newClient.Some? then SyncResult(Some(Sdk(b.newClient.value)), certs, listener, c0)
    else
      var c1 := c0 + [CertificatesDescribed];
      if b.describeCertificates.Some? then SyncResult(Some(Sdk(b.describeCertificates.value)), certs, listener, c1)
      else
        var m := FirstMatch(certs, certificate.domain);
        if |certs| > 0 && m.Some? && StillValid(certs[m.value].expire, now, config.defaultRenewDay) then
          SyncResult(Some(DomainStillValid), certs, listener, c1)
        else
          var c2 := if |certs| > 0 then c1 + [DeleteRequested] else c1;
          if |certs| > 0 && b.delete.Some? then SyncResult(Some(Sdk(b.delete.value)), certs, listener, c2)
          else
            var upload := UploadRequestFor(certificate);
            var c3 := c2 + [UploadRequested(upload)];
            if b.upload.Some? then SyncResult(Some(Sdk(b.upload.value)), certs, listener, c3)
            else
              var a := Attach(listener, b, aslb, b.assignedId);
              SyncResult(a.err, certs + [UploadedEntry(b, upload)], a.listener, c3 + a.calls)
  }

  /** What happens at the listener once the certificate is uploaded. */
  datatype AttachResult = AttachResult(err: Option<Error>, listener: Option<Listener>, calls: seq<SlbCall>)

  function Attach(listener: Option<Listener>, b: Behaviour, aslb: AliyunSlb, certId: string): AttachResult
  {
    var port, lbId := aslb.listenerPort, aslb.loadBalancerId;
    var c0 := [ListenerDescribed(port, lbId)];
    match ListenerStatus(ListenerQuery(listener, b.describeListener))
    case Failure(e) => AttachResult(Some(e), listener, c0)
    case Success(status) =>
      var request := CreateListenerRequest(port, lbId, certId, HttpsListenerSettings(aslb.backendServerPort));
      var c1 := c0 + [if status == "" then ListenerCreateRequested(request) else ListenerCertificateSet(port, lbId, certId)];
      var fault := if status == "" then b.create else b.setCertificate;
      var attached := if status == "" then Some(CreatedListener(request)) else WithCertificate(listener, certId);
      if fault.Some? then AttachResult(Some(Sdk(fault.value)), listener, c1)
      else if status == "running" then AttachResult(None, attached, c1)
      else
        var c2 := c1 + [ListenerStartRequested(port, lbId)];
        var started := if b.start.Started? then Running(attached) else attached;
        AttachResult(StartError(b.start, port, lbId), started, c2)
  }

  // ---------------------------------------------------------------------
  // The synchronization, step by step
  // ---------------------------------------------------------------------

  /** The inventory scan: entries in order, SANs in order, stopping at the
      first entry that lists the domain. */
  method ScanInventory(cs: seq<Entry>, domain: string) returns (found: bool, serverCertificateId: string, lastExpireTimeStamp: int)
    ensures found <==> FirstMatch(cs, domain).Some?
    ensures found ==> serverCertificateId == cs[FirstMatch(cs, domain).value].id
                      && lastExpireTimeStamp == cs[FirstMatch(cs, domain).value].expire
    ensures !found ==> serverCertificateId == "" && lastExpireTimeStamp == 0
  {
    found, serverCertificateId, lastExpireTimeStamp := false, "", 0;
    var i := 0;
    while i < |cs|
      invariant 0 <= i <= |cs|
      invariant forall k :: 0 <= k < i ==> domain !in cs[k].sans
    {
      var sans := cs[i].sans;
      var j := 0;
      while j < |sans|
        invariant 0 <= j <= |sans|
        invariant domain !in sans[..j]
      {
        if sans[j] == domain {
          serverCertificateId := cs[i].id;
          lastExpireTimeStamp := cs[i].expire;
          found := true;
          return;
        }
        assert sans[..j + 1] == sans[..j] + [sans[j]];
        j := j + 1;
      }
      assert sans[..j] == sans;
      i := i + 1;
    }
  }

  /** UpCertificate2AliyunSLB. `now` is the current Unix time in seconds. */
  method UpCertificate2AliyunSLB(client: SdkClient, key: AccessKey, config: DomainConfig, aslb: AliyunSlb,
                                 certificate: Certificate, now: int) returns (err: Option<Error>)
    modifies client
    ensures var s := Sync(old(client.certs), old(client.listener), client.behaviour, key, config, aslb, certificate, now);
            && err == s.err && client.certs == s.certs && client.listener == s.listener
            && client.log == old(client.log) + s.calls
  {
    var connectErr := client.Connect(aslb.regionId, key.accessKeyId, key.accessKeySecret);
    if connectErr.Some? {
      return Some(Sdk(connectErr.value));
    }
    var serverCertificateId := "";
    var cs := client.DescribeServerCertificates();
    if cs.Failure? {
      return Some(Sdk(cs.error));
    }
    if |cs.value| > 0 {
      var expireTimeStamp := 86400 * config.defaultRenewDay;
      var found, id, lastExpireTimeStamp := ScanInventory(cs.value, certificate.domain);
      if found {
        serverCertificateId := id;
        if lastExpireTimeStamp - now * 100 > expireTimeStamp {
          return Some(DomainStillValid);
        }
      }
      var deleteErr := client.DeleteServerCertificate();
      if deleteErr.Some? {
        return Some(Sdk(deleteErr.value));
      }
      serverCertificateId := "";
    }
    if |serverCertificateId| == 0 {
      var uploaded := client.UploadServerCertificate(UploadRequestFor(certificate));
      if uploaded.Failure? {
        return Some(Sdk(uploaded.error));
      }
      serverCertificateId := uploaded.value;
    }
    err := AttachListener(client, aslb, serverCertificateId);
  }

  /** The listener part of UpCertificate2AliyunSLB: query, create or update,
      then start unless it was already running. */
  method AttachListener(client: SdkClient, aslb: AliyunSlb, serverCertificateId: string) returns (err: Option<Error>)
    modifies client
    ensures var a := Attach(old(client.listener), client.behaviour, aslb, serverCertificateId);
            && err == a.err && client.listener == a.listener && client.certs == old(client.certs)
            && client.log == old(client.log) + a.calls
  {
    var raw := client.DescribeLoadBalancerHTTPSListenerAttribute(aslb.listenerPort, aslb.loadBalancerId);
    var queried := ListenerStatus(raw);
    if queried.Failure? {
      return Some(queried.error);
    }
    var status := queried.value;
    if status == "" {
      var request := CreateListenerRequest(aslb.listenerPort, aslb.loadBalancerId, serverCertificateId,
                                           HttpsListenerSettings(aslb.backendServerPort));
      var createErr := client.CreateLoadBalancerHTTPSListener(request);
      if createErr.Some? {
        return Some(Sdk(createErr.value));
      }
    } else {
      var setErr := client.SetLoadBalancerHTTPSListenerAttribute(aslb.listenerPort, aslb.loadBalancerId, serverCertificateId);
      if setErr.Some? {
        return Some(Sdk(setErr.value));
      }
    }
    if status != "running" {
      var started := client.StartLoadBalancerListener(aslb.listenerPort, aslb.loadBalancerId);
      err := StartError(started, aslb.listenerPort, aslb.loadBalancerId);
      return;
    }
    err := None;
  }

  // ---------------------------------------------------------------------
  // The expiry comparison (see the finding in README)
  // ---------------------------------------------------------------------

  /** The comparison as evidently intended: the SDK's expiry timestamp is in
      milliseconds, so the current time and the threshold are scaled to
      milliseconds too. An entry that has already expired is never valid. */
  function StillValidMillis(expire: int, now: int, days: int): (valid: bool)
    ensures days >= 0 && expire <= now * 1000 ==> !valid
  {
    expire - now * 1000 > 86400 * 1000 * days
  }

  /** For an expiry on a whole second, the intended test says exactly "more
      than `days` days are left". */
  lemma StillValidMillisInSeconds(notAfter: int, now: int, days: int)
    ensures StillValidMillis(notAfter * 1000, now, days) <==> notAfter - now > 86400 * days
  {
    assert notAfter * 1000 - now * 1000 - 86400 * 1000 * days == (notAfter - now - 86400 * days) * 1000;
  }

  /** As written, an entry expiring at this very second still passes as valid
      whenever the current Unix time times 900 exceeds the threshold in
      seconds, which holds for any present-day clock and threshold below
      about 48 years. */
  lemma ExpiringNowPassesAsWritten(now: int, days: int)
    requires 0 <= days && 86400 * days < now * 900
    ensures StillValid(now * 1000, now, days)
    ensures !StillValidMillis(now * 1000, now, days)
  {
  }

  /** A concrete instance: a certificate that expired a day before
      2023-11-14 22:13:20 UTC, with the default 90-day threshold. */
  lemma ExpiredYesterdayPassesAsWritten()
    ensures StillValid((1700000000 - 86400) * 1000, 1700000000, 90)
    ensures !StillValidMillis((1700000000 - 86400) * 1000, 1700000000, 90)
  {
  }

  // ---------------------------------------------------------------------
  // Properties of the scan and the listener query
  // ---------------------------------------------------------------------

  /** Entries after the first match do not change it. */
  lemma {:induction false} LaterMatchesIgnored(cs: seq<Entry>, extra: seq<Entry>, domain: string)
    requires FirstMatch(cs, domain).Some?
    ensures FirstMatch(cs + extra, domain) == FirstMatch(cs, domain)
  {
    if domain !in cs[0].sans {
      assert (cs + extra)[1..] == cs[1..] + extra;
      LaterMatchesIgnored(cs[1..], extra, domain);
    }
  }

  /** An entry appended to an inventory without a match becomes the match. */
  lemma {:induction false} AppendedEntryMatches(cs: seq<Entry>, e: Entry, domain: string)
    requires FirstMatch(cs, domain).None? && domain in e.sans
    ensures FirstMatch(cs + [e], domain) == Some(|cs|)
  {
    if |cs| > 0 {
      assert (cs + [e])[1..] == cs[1..] + [e];
      AppendedEntryMatches(cs[1..], e, domain);
    }
  }

  /** The listener reads as absent (status "") exactly when the service
      answers InvalidParameter, or when the query succeeds with an empty
      status; every other error is returned as it is. */
  lemma ListenerAbsentMapping(listener: Option<Listener>, fault: Option<SdkError>)
    ensures ListenerStatus(ListenerQuery(listener, fault)) == Success("") <==>
            fault == Some(ServerError(InvalidParameter))
            || (fault.None? && (listener.None? || listener.value.status == ""))
    ensures fault.Some? && fault.value != ServerError(InvalidParameter) ==>
            ListenerStatus(ListenerQuery(listener, fault)) == Failure(Sdk(fault.value))
  {
  }

  // ---------------------------------------------------------------------
  // Properties of the synchronization
  // ---------------------------------------------------------------------

  /** The client was built and the inventory read. */
  predicate Connected(b: Behaviour)
  {
    b.newClient.None? && b.describeCertificates.None?
  }

  /** Only listener calls happen once the certificate is uploaded, and the
      first of them is the query. */
  lemma AttachCallsAreListenerCalls(listener: Option<Listener>, b: Behaviour, aslb: AliyunSlb, certId: string)
    ensures var a := Attach(listener, b, aslb, certId);
            1 <= |a.calls| <= 3 && a.calls[0] == ListenerDescribed(aslb.listenerPort, aslb.loadBalancerId)
            && forall c :: c in a.calls ==>
                 (c.ListenerDescribed? || c.ListenerCreateRequested? || c.ListenerCertificateSet? || c.ListenerStartRequested?)
    ensures Attach(listener, b, aslb, certId).err != Some(DomainStillValid)
    ensures forall c :: c in Attach(listener, b, aslb, certId).calls ==> CarriesCertificate(c, aslb, certId)
  {
  }

  /** A create or update request for the configured listener with `certId`. */
  predicate CarriesCertificate(c: SlbCall, aslb: AliyunSlb, certId: string)
  {
    && (c.ListenerCreateRequested? ==>
          c.create == CreateListenerRequest(aslb.listenerPort, aslb.loadBalancerId, certId, HttpsListenerSettings(aslb.backendServerPort)))
    && (c.ListenerCertificateSet? ==> c == ListenerCertificateSet(aslb.listenerPort, aslb.loadBalancerId, certId))
  }

  /** Every call of a run is a client, inventory, delete or upload call of
      the fixed shape, or one of the listener calls. */
  lemma SyncCallsWithin(certs: seq<Entry>, listener: Option<Listener>, b: Behaviour, key: AccessKey,
                        config: DomainConfig, aslb: AliyunSlb, certificate: Certificate, now: int)
    ensures var s := Sync(certs, listener, b, key, config, aslb, certificate, now);
            forall c :: c in s.calls ==>
              c == ClientCreated(aslb.regionId, key.accessKeyId) || c == CertificatesDescribed || c == DeleteRequested
              || c == UploadRequested(UploadRequestFor(certificate))
              || c in Attach(listener, b, aslb, b.assignedId).calls
  {
  }

  /** The run stops with "domain still valid" exactly when the first entry
      listing the domain passes the validity test; it then made only the
      client and the inventory query, and changed nothing. */
  lemma ShortCircuitIffStillValid(certs: seq<Entry>, listener: Option<Listener>, b: Behaviour, key: AccessKey,
                                  config: DomainConfig, aslb: AliyunSlb, certificate: Certificate, now: int)
    ensures var s := Sync(certs, listener, b, key, config, aslb, certificate, now);
            var m := FirstMatch(certs, certificate.domain);
            s.err == Some(DomainStillValid) <==>
              Connected(b) && m.Some? && StillValid(certs[m.value].expire, now, config.defaultRenewDay)
    ensures var s := Sync(certs, listener, b, key, config, aslb, certificate, now);
            s.err == Some(DomainStillValid) ==>
              s.calls == [ClientCreated(aslb.regionId, key.accessKeyId), CertificatesDescribed]
              && s.certs == certs && s.listener == listener
  {
    AttachCallsAreListenerCalls(listener, b, aslb, b.assignedId);
  }

  /** A non-empty inventory that does not short-circuit gets exactly one
      delete request, third in order, whether or not an entry matched; a
      failed delete ends the run before any upload, and a successful one is
      followed by the upload named after the domain. */
  lemma NonEmptyInventoryDeletesOnce(certs: seq<Entry>, listener: Option<Listener>, b: Behaviour, key: AccessKey,
                                     config: DomainConfig, aslb: AliyunSlb, certificate: Certificate, now: int)
    requires Connected(b) && |certs| > 0
    requires Sync(certs, listener, b, key, config, aslb, certificate, now).err != Some(DomainStillValid)
    ensures var s := Sync(certs, listener, b, key, config, aslb, certificate, now);
            |s.calls| >= 3 && s.calls[2] == DeleteRequested
            && forall k :: 0 <= k < |s.calls| && k != 2 ==> s.calls[k] != DeleteRequested
    ensures b.delete.Some? ==>
            Sync(certs, listener, b, key, config, aslb, certificate, now)
            == SyncResult(Some(Sdk(b.delete.value)), certs, listener,
                          [ClientCreated(aslb.regionId, key.accessKeyId), CertificatesDescribed, DeleteRequested])
    ensures b.delete.None? ==>
            var s := Sync(certs, listener, b, key, config, aslb, certificate, now);
            |s.calls| >= 4 && s.calls[3] == UploadRequested(UploadRequestFor(certificate))
  {
    var a := Attach(listener, b, aslb, b.assignedId);
    AttachCallsAreListenerCalls(listener, b, aslb, b.assignedId);
    assert DeleteRequested !in a.calls;
  }

  /** An empty inventory is never deleted from: the upload comes right after
      the inventory query. */
  lemma EmptyInventoryUploadsWithoutDelete(certs: seq<Entry>, listener: Option<Listener>, b: Behaviour, key: AccessKey,
                                           config: DomainConfig, aslb: AliyunSlb, certificate: Certificate, now: int)
    requires Connected(b) && |certs| == 0
    ensures var s := Sync(certs, listener, b, key, config, aslb, certificate, now);
            DeleteRequested !in s.calls && |s.calls| >= 3 && s.calls[2] == UploadRequested(UploadRequestFor(certificate))
  {
    var a := Attach(listener, b, aslb, b.assignedId);
    AttachCallsAreListenerCalls(listener, b, aslb, b.assignedId);
    assert DeleteRequested !in a.calls;
  }

  /** Every upload is named after the domain and carries its PEM, and every
      listener create or update carries the id the upload returned. */
  lemma UploadedIdReachesListener(certs: seq<Entry>, listener: Option<Listener>, b: Behaviour, key: AccessKey,
                                  config: DomainConfig, aslb: AliyunSlb, certificate: Certificate, now: int)
    ensures var s := Sync(certs, listener, b, key, config, aslb, certificate, now);
            forall c :: c in s.calls && c.UploadRequested? ==>
              c.upload.name == certificate.domain && c.upload.serverCertificate == certificate.certificate
    ensures var s := Sync(certs, listener, b, key, config, aslb, certificate, now);
            forall c :: c in s.calls && c.ListenerCreateRequested? ==>
              c.create.port == aslb.listenerPort && c.create.loadBalancerId == aslb.loadBalancerId
              && c.create.serverCertificateId == b.assignedId
    ensures var s := Sync(certs, listener, b, key, config, aslb, certificate, now);
            forall c :: c in s.calls && c.ListenerCertificateSet? ==> c.certId == b.assignedId
  {
    SyncCallsWithin(certs, listener, b, key, config, aslb, certificate, now);
    AttachCallsAreListenerCalls(listener, b, aslb, b.assignedId);
  }

  /** Every create request sets unlimited bandwidth, cookie-insertion
      stickiness with a one-day cookie, no health check, and the backend
      port of the load-balancer record. */
  lemma CreatedListenerDefaults(certs: seq<Entry>, listener: Option<Listener>, b: Behaviour, key: AccessKey,
                                config: DomainConfig, aslb: AliyunSlb, certificate: Certificate, now: int)
    ensures var s := Sync(certs, listener, b, key, config, aslb, certificate, now);
            forall c :: c in s.calls && c.ListenerCreateRequested? ==>
              c.create.settings == ListenerSettings(aslb.backendServerPort, -1, "on", "insert", 86400, "off")
  {
    SyncCallsWithin(certs, listener, b, key, config, aslb, certificate, now);
    AttachCallsAreListenerCalls(listener, b, aslb, b.assignedId);
  }

  /** An absent listener is created with the uploaded certificate; an
      existing one only has its certificate id set. */
  lemma CreateOnlyWhenAbsent(listener: Option<Listener>, b: Behaviour, aslb: AliyunSlb, certId: string)
    requires ListenerStatus(ListenerQuery(listener, b.describeListener)).Success?
    ensures var a := Attach(listener, b, aslb, certId);
            var status := ListenerStatus(ListenerQuery(listener, b.describeListener)).value;
            |a.calls| >= 2
            && (status == "" ==> a.calls[1].ListenerCreateRequested? && a.calls[1].create.serverCertificateId == certId)
            && (status != "" ==> a.calls[1] == ListenerCertificateSet(aslb.listenerPort, aslb.loadBalancerId, certId))
  {
  }

  /** Once create or update succeeded, the listener is started exactly when
      the status read before was not "running"; in particular always after a
      create. */
  lemma StartOnlyWhenNotRunning(listener: Option<Listener>, b: Behaviour, aslb: AliyunSlb, certId: string)
    requires ListenerStatus(ListenerQuery(listener, b.describeListener)).Success?
    requires b.create.None? && b.setCertificate.None?
    ensures var a := Attach(listener, b, aslb, certId);
            var status := ListenerStatus(ListenerQuery(listener, b.describeListener)).value;
            ListenerStartRequested(aslb.listenerPort, aslb.loadBalancerId) in a.calls <==> status != "running"
  {
  }

  /** A successful run leaves a running listener serving the uploaded
      certificate, with the fixed settings when it had to be created, and the
      inventory grown by exactly the uploaded entry: nothing is removed. */
  lemma SuccessfulSyncConverges(certs: seq<Entry>, listener: Option<Listener>, b: Behaviour, key: AccessKey,
                                config: DomainConfig, aslb: AliyunSlb, certificate: Certificate, now: int)
    requires Sync(certs, listener, b, key, config, aslb, certificate, now).err.None?
    ensures var s := Sync(certs, listener, b, key, config, aslb, certificate, now);
            s.listener.Some? && s.listener.value.status == "running" && s.listener.value.certId == b.assignedId
    ensures var s := Sync(certs, listener, b, key, config, aslb, certificate, now);
            s.certs == certs + [UploadedEntry(b, UploadRequestFor(certificate))]
    ensures var s := Sync(certs, listener, b, key, config, aslb, certificate, now);
            listener.None? ==> s.listener.value.settings == HttpsListenerSettings(aslb.backendServerPort)
  {
  }

  /** Re-running after a success stops at the inventory query, provided the
      inventory held no entry for the domain before, the uploaded
      certificate lists the domain, and it passes the validity test at the
      time of the second run. */
  lemma ResyncShortCircuits(certs: seq<Entry>, listener: Option<Listener>, b: Behaviour, b2: Behaviour, key: AccessKey,
                            config: DomainConfig, aslb: AliyunSlb, certificate: Certificate, now: int, now2: int)
    requires Sync(certs, listener, b, key, config, aslb, certificate, now).err.None?
    requires FirstMatch(certs, certificate.domain).None?
    requires certificate.domain in b.readPem(certificate.certificate).sans
    requires StillValid(b.readPem(certificate.certificate).expire, now2, config.defaultRenewDay)
    requires Connected(b2)
    ensures var s := Sync(certs, listener, b, key, config, aslb, certificate, now);
            var s2 := Sync(s.certs, s.listener, b2, key, config, aslb, certificate, now2);
            s2.err == Some(DomainStillValid) && s2.certs == s.certs && s2.listener == s.listener
            && s2.calls == [ClientCreated(aslb.regionId, key.accessKeyId), CertificatesDescribed]
  {
    var s := Sync(certs, listener, b, key, config, aslb, certificate, now);
    SuccessfulSyncConverges(certs, listener, b, key, config, aslb, certificate, now);
    AppendedEntryMatches(certs, UploadedEntry(b, UploadRequestFor(certificate)), certificate.domain);
    ShortCircuitIffStillValid(s.certs, s.listener, b2, key, config, aslb, certificate, now2);
  }

  /** Because delete removes nothing, a stale entry listing the domain stays
      in the inventory. As long as the service lists it before the entries
      uploaded later (which are appended after it here), every later run
      finds it again and never short-circuits, however fresh those uploads
      are. */
  lemma StaleEntryBlocksShortCircuit(certs: seq<Entry>, extra: seq<Entry>, listener: Option<Listener>, b: Behaviour,
                                     key: AccessKey, config: DomainConfig, aslb: AliyunSlb, certificate: Certificate, now: int)
    requires FirstMatch(certs, certificate.domain).Some?
    requires !StillValid(certs[FirstMatch(certs, certificate.domain).value].expire, now, config.defaultRenewDay)
    ensures Sync(certs + extra, listener, b, key, config, aslb, certificate, now).err != Some(DomainStillValid)
  {
    LaterMatchesIgnored(certs, extra, certificate.domain);
    ShortCircuitIffStillValid(certs + extra, listener, b, key, config, aslb, certificate, now);
  }
}
