/** The orderer controller of the Kubernetes operator: one reconcile pass
    over an orderer custom resource, which creates the orderer's secret,
    service and stateful set when they are missing and publishes the
    orderer's access point in its status. The API server is a map from
    (kind, namespace, name) to object; how its reads and writes fail is a
    parameter. Base64, PEM, X.509 and UTF-8 are opaque functions. */
module OrdererController {
  import opened Common

  // ---------------------------------------------------------------------
  // Resources
  // ---------------------------------------------------------------------

  type Bytes = seq<bv8>

  datatype TLS = TLS(tlsCert: string, tlsKey: string)

  datatype ConfigParam = ConfigParam(name: string, value: string)

  /** The orderer custom resource's spec. Certificates and keys are base64
      text; `resources` stands for the container's resource requirements. */
  datatype OrdererSpec = OrdererSpec(
    adminCerts: seq<string>, caCerts: seq<string>, keyStore: string, signCerts: string,
    tlsCacerts: seq<string>, tls: TLS, configParams: seq<ConfigParam>,
    storageClass: string, storageSize: string, image: string, hosts: seq<string>,
    resources: map<string, string>)

  datatype Orderer = Orderer(name: string, namespace: string, spec: OrdererSpec, accessPoint: string)

  datatype Request = Request(namespace: string, name: string)

  datatype Secret = Secret(name: string, namespace: string, labels: map<string, string>,
                           data: map<string, Bytes>)

  datatype ServicePort = ServicePort(port: int, nodePort: int)

  datatype Service = Service(name: string, namespace: string, labels: map<string, string>,
                             selector: map<string, string>, ports: seq<ServicePort>)

  /** The zero-valued service a failed read leaves behind. */
  const EmptyService := Service("", "", map[], map[], [])

  /** A container environment variable: a literal value, or a reference to
      a key of the named secret. */
  datatype EnvVar = EnvVar(name: string, value: string, secretKeyRef: Option<string>)

  /** The fields of a stateful set that the controller sets or reads:
      `volumeSecretName` is the first volume's secret, `storageClassName` and
      `storageSize` belong to the first volume claim template, the
      environments to the first init container and the first container. */
  datatype StatefulSet = StatefulSet(
    name: string, namespace: string, serviceName: string,
    matchLabels: map<string, string>, templateLabels: map<string, string>,
    storageClassName: Option<string>, storageSize: string, image: string,
    volumeSecretName: string, initEnv: seq<EnvVar>, containerEnv: seq<EnvVar>,
    resources: map<string, string>)

  /** The objects decoded from the three manifest templates; `None` when a
      template does not decode to an object of the expected type. */
  datatype Templates = Templates(secret: Option<Secret>, service: Option<Service>,
                                 statefulSet: Option<StatefulSet>)

  datatype Certificate = Certificate(subjectOrganization: seq<string>, issuerOrganization: seq<string>)

  datatype PemBlock = PemBlock(blockType: string, bytes: Bytes)

  /** The library decoders: base64 (the bytes decoded before any error, as
      Go's `DecodeString` returns them), PEM (the first block, if any),
      X.509 (a certificate, or a parse error) and UTF-8 encoding. */
  datatype Codecs = Codecs(base64Decode: string -> Bytes, pemDecode: Bytes -> Option<PemBlock>,
                           parseCertificate: Bytes -> Option<Certificate>, utf8: string -> Bytes)

  const AppLabel := "k8s-app"
  const SecretSuffix := "-secret"
  const DefaultStorageClass := "default"
  const DefaultStorageSize := "5Gi"
  const DefaultImage := "hyperledger/fabric-orderer:1.4.3"
  const DefaultMspId := "SampleOrgMSPID"

  function SecretName(request: Request): string {
    request.name + SecretSuffix
  }

  /** The value, or the fallback when the value is empty. */
  function GetDefault(value: string, fallback: string): string {
    if value == "" then fallback else value
  }

  // ---------------------------------------------------------------------
  // The access point
  // ---------------------------------------------------------------------

  /** `https://<first public address>:<node port>`, or the bare port when
      neither the spec's hosts nor the nodes give an address. */
  function AccessPoint(hosts: seq<string>, nodeIPs: seq<string>, nodePort: int): (ap: string)
    requires nodePort > 0
    ensures |ap| > 0
  {
    var publicIPs := hosts + nodeIPs;
    if |publicIPs| > 0 then "https://" + publicIPs[0] + ":" + Decimal(nodePort)
    else Decimal(nodePort)
  }

  datatype Endpoint = Endpoint(host: Option<string>, port: nat)

  /** Reads an access point back: the host (when there is a scheme) and the
      port after the last `:`. */
  function ParseAccessPoint(ap: string): Option<Endpoint> {
    if StartsWith(ap, "https://") then
      match LastIndexOf(ap, ':')
      case None => None
      case Some(i) =>
        if 8 <= i && AllDigits(ap[i + 1..]) && i + 1 < |ap| then
          Some(Endpoint(Some(ap[8..i]), ParseDecimal(ap[i + 1..])))
        else None
    else if |ap| > 0 && AllDigits(ap) then Some(Endpoint(None, ParseDecimal(ap)))
    else None
  }

  lemma DecimalHasNoColon(n: nat)
    ensures ':' !in Decimal(n)
  {
    var port := Decimal(n);
    assert forall j :: 0 <= j < |port| ==> port[j] != ':';
  }

  lemma ParseWithHost(host: string, nodePort: nat)
    ensures ParseAccessPoint("https://" + host + ":" + Decimal(nodePort)) == Some(Endpoint(Some(host), nodePort))
  {
    var port := Decimal(nodePort);
    var scheme := "https://" + host;
    var ap := scheme + [':'] + port;
    assert "https://" + host + ":" + port == ap;
    DecimalHasNoColon(nodePort);
    LastIndexOfAfter(scheme, ':', port);
    assert ap[..8] == "https://";
    assert ap[8..|scheme|] == host;
    assert ap[|scheme| + 1..] == port;
    DecimalRoundTrip(nodePort);
  }

  lemma ParseBarePort(nodePort: nat)
    ensures ParseAccessPoint(Decimal(nodePort)) == Some(Endpoint(None, nodePort))
  {
    var port := Decimal(nodePort);
    assert IsDigit(port[0]);
    assert !StartsWith(port, "https://");
    DecimalRoundTrip(nodePort);
  }

  /** The access point carries exactly the first public address (if any)
      and the node port. */
  lemma AccessPointRoundTrip(hosts: seq<string>, nodeIPs: seq<string>, nodePort: int)
    requires nodePort > 0
    ensures var publicIPs := hosts + nodeIPs;
      ParseAccessPoint(AccessPoint(hosts, nodeIPs, nodePort)) ==
        Some(Endpoint(if |publicIPs| > 0 then Some(publicIPs[0]) else None, nodePort))
  {
    var publicIPs := hosts + nodeIPs;
    if |publicIPs| > 0 {
      ParseWithHost(publicIPs[0], nodePort);
    } else {
      ParseBarePort(nodePort);
    }
  }

  /** The node port can be recovered from the access point, so two
      different ports never publish the same access point. */
  lemma AccessPointInjective(hosts: seq<string>, nodeIPs: seq<string>, port1: int, port2: int)
    requires port1 > 0 && port2 > 0
    requires AccessPoint(hosts, nodeIPs, port1) == AccessPoint(hosts, nodeIPs, port2)
    ensures port1 == port2
  {
    AccessPointRoundTrip(hosts, nodeIPs, port1);
    AccessPointRoundTrip(hosts, nodeIPs, port2);
  }

  // ---------------------------------------------------------------------
  // The MSP id
  // ---------------------------------------------------------------------

  function FirstOrDefault(names: seq<string>, fallback: string): string {
    if |names| > 0 then names[0] else fallback
  }

  /** The organization name used as MSP id: the certificate's first
      organization, the subject's before the issuer's (X.509 subject and
      issuer names, sections 4.1.2.6 and 4.1.2.4 of RFC 5280); the sample
      id when there is no PEM block, the certificate does not parse, or it
      names no organization. */
  function MspIdName(codecs: Codecs, signcert: Bytes): (name: string)
    ensures codecs.pemDecode(signcert).None? ==> name == DefaultMspId
    ensures codecs.pemDecode(signcert).Some? && codecs.parseCertificate(codecs.pemDecode(signcert).value.bytes).None? ==>
      name == DefaultMspId
    ensures codecs.pemDecode(signcert).Some? && codecs.parseCertificate(codecs.pemDecode(signcert).value.bytes).Some? ==>
      var cert := codecs.parseCertificate(codecs.pemDecode(signcert).value.bytes).value;
      name == FirstOrDefault(cert.subjectOrganization + cert.issuerOrganization, DefaultMspId)
  {
    match codecs.pemDecode(signcert)
    case None => DefaultMspId
    case Some(block) =>
      match codecs.parseCertificate(block.bytes)
      case None => DefaultMspId
      case Some(cert) =>
        if |cert.subjectOrganization| > 0 then cert.subjectOrganization[0]
        else if |cert.issuerOrganization| > 0 then cert.issuerOrganization[0]
        else DefaultMspId
  }

  // ---------------------------------------------------------------------
  // The secret (`newSecretForCR`)
  // ---------------------------------------------------------------------

  const AdminCertPrefix := "admincert"
  const CaCertPrefix := "cacert"
  const TlsCaCertPrefix := "tlscacert"
  const KeystoreKey := "keystore"
  const SigncertKey := "signcert"
  const MspIdKey := "mspid"
  const TlsCertKey := "tlscert"
  const TlsKeyKey := "tlskey"

  function IndexedKey(prefix: string, i: nat): string {
    prefix + Decimal(i)
  }

  function IndexedKeys(prefix: string, n: nat): set<string> {
    set i: nat | i < n :: IndexedKey(prefix, i)
  }

  lemma IndexedKeyInjective(prefix: string, i: nat, j: nat)
    requires IndexedKey(prefix, i) == IndexedKey(prefix, j)
    ensures i == j
  {
    assert Decimal(i) == IndexedKey(prefix, i)[|prefix|..];
    assert Decimal(j) == IndexedKey(prefix, j)[|prefix|..];
    DecimalInjective(i, j);
  }

  /** Keys of a prefix that differs from `other` at position `k` neither
      equal `other` nor start with it. */
  lemma IndexedKeysAvoid(prefix: string, other: string, k: nat)
    requires k < |prefix| && k < |other| && prefix[k] != other[k]
    ensures forall i: nat :: IndexedKey(prefix, i) != other && !StartsWith(IndexedKey(prefix, i), other)
  {
    forall i: nat
      ensures IndexedKey(prefix, i) != other && !StartsWith(IndexedKey(prefix, i), other)
    {
      assert IndexedKey(prefix, i)[k] == prefix[k];
    }
  }

  /** The secret's data keys never collide: no list entry overwrites another
      list's entry or one of the fixed keys. */
  lemma SecretKeysApart()
    ensures forall i: nat :: IndexedKey(AdminCertPrefix, i) !in {KeystoreKey, SigncertKey, MspIdKey, TlsCertKey, TlsKeyKey}
    ensures forall i: nat :: IndexedKey(CaCertPrefix, i) !in {KeystoreKey, SigncertKey, MspIdKey, TlsCertKey, TlsKeyKey}
    ensures forall i: nat :: IndexedKey(TlsCaCertPrefix, i) !in {KeystoreKey, SigncertKey, MspIdKey, TlsCertKey, TlsKeyKey}
    ensures forall i: nat :: !StartsWith(IndexedKey(AdminCertPrefix, i), CaCertPrefix)
    ensures forall i: nat :: !StartsWith(IndexedKey(AdminCertPrefix, i), TlsCaCertPrefix)
    ensures forall i: nat :: !StartsWith(IndexedKey(CaCertPrefix, i), TlsCaCertPrefix)
  {
    IndexedKeysAvoid(AdminCertPrefix, KeystoreKey, 0);
    IndexedKeysAvoid(AdminCertPrefix, SigncertKey, 0);
    IndexedKeysAvoid(AdminCertPrefix, MspIdKey, 0);
    IndexedKeysAvoid(AdminCertPrefix, TlsCertKey, 0);
    IndexedKeysAvoid(AdminCertPrefix, TlsKeyKey, 0);
    IndexedKeysAvoid(AdminCertPrefix, CaCertPrefix, 0);
    IndexedKeysAvoid(AdminCertPrefix, TlsCaCertPrefix, 0);
    IndexedKeysAvoid(CaCertPrefix, KeystoreKey, 0);
    IndexedKeysAvoid(CaCertPrefix, SigncertKey, 0);
    IndexedKeysAvoid(CaCertPrefix, MspIdKey, 0);
    IndexedKeysAvoid(CaCertPrefix, TlsCertKey, 0);
    IndexedKeysAvoid(CaCertPrefix, TlsKeyKey, 0);
    IndexedKeysAvoid(CaCertPrefix, TlsCaCertPrefix, 0);
    IndexedKeysAvoid(TlsCaCertPrefix, KeystoreKey, 0);
    IndexedKeysAvoid(TlsCaCertPrefix, SigncertKey, 0);
    IndexedKeysAvoid(TlsCaCertPrefix, MspIdKey, 0);
    IndexedKeysAvoid(TlsCaCertPrefix, TlsCertKey, 4);
    IndexedKeysAvoid(TlsCaCertPrefix, TlsKeyKey, 3);
  }

  /** The key of element `i` is new among the keys of elements before it. */
  lemma IndexedKeyFresh(prefix: string, i: nat)
    ensures StartsWith(IndexedKey(prefix, i), prefix)
    ensures forall j :: 0 <= j < i ==> IndexedKey(prefix, j) != IndexedKey(prefix, i)
  {
    assert IndexedKey(prefix, i)[..|prefix|] == prefix;
    forall j | 0 <= j < i
      ensures IndexedKey(prefix, j) != IndexedKey(prefix, i)
    {
      if IndexedKey(prefix, j) == IndexedKey(prefix, i) {
        IndexedKeyInjective(prefix, j, i);
      }
    }
  }

  lemma IndexedKeysGrow(prefix: string, i: nat)
    ensures IndexedKeys(prefix, i + 1) == IndexedKeys(prefix, i) + {IndexedKey(prefix, i)}
  {
  }

  /** `d` holds, for every element, `prefix<i>` mapped to the decoded `items[i]`. */
  predicate Laid(d: map<string, Bytes>, prefix: string, items: seq<string>, decode: string -> Bytes) {
    forall i :: 0 <= i < |items| ==> IndexedKey(prefix, i) in d && d[IndexedKey(prefix, i)] == decode(items[i])
  }

  /** Entries laid under one prefix survive writes under another prefix. */
  lemma LaidKept(d: map<string, Bytes>, d': map<string, Bytes>, prefix: string, items: seq<string>,
                 decode: string -> Bytes, other: string)
    requires Laid(d, prefix, items, decode)
    requires d.Keys <= d'.Keys
    requires forall k :: k in d && !StartsWith(k, other) ==> d'[k] == d[k]
    requires forall i: nat :: !StartsWith(IndexedKey(prefix, i), other)
    ensures Laid(d', prefix, items, decode)
  {
  }

  /** Entries laid under a prefix survive a write to a key outside it. */
  lemma LaidUpdated(d: map<string, Bytes>, prefix: string, items: seq<string>, decode: string -> Bytes,
                    key: string, v: Bytes)
    requires Laid(d, prefix, items, decode)
    requires forall i: nat :: IndexedKey(prefix, i) != key
    ensures Laid(d[key := v], prefix, items, decode)
  {
  }

  /** After `i` rounds of `PutIndexed`: the first `i` elements are laid
      under the prefix and nothing else has changed. */
  predicate PutSoFar(data: map<string, Bytes>, out: map<string, Bytes>, prefix: string, items: seq<string>,
                     decode: string -> Bytes, i: nat)
    requires i <= |items|
  {
    && out.Keys == data.Keys + IndexedKeys(prefix, i)
    && (forall j :: 0 <= j < i ==> IndexedKey(prefix, j) in out && out[IndexedKey(prefix, j)] == decode(items[j]))
    && (forall k :: k in data && !StartsWith(k, prefix) ==> out[k] == data[k])
  }

  lemma PutStep(data: map<string, Bytes>, out: map<string, Bytes>, prefix: string, items: seq<string>,
                decode: string -> Bytes, i: nat)
    requires i < |items| && PutSoFar(data, out, prefix, items, decode, i)
    ensures PutSoFar(data, out[IndexedKey(prefix, i) := decode(items[i])], prefix, items, decode, i + 1)
  {
    IndexedKeyFresh(prefix, i);
    IndexedKeysGrow(prefix, i);
  }

  /** One data entry per list element, `prefix0`, `prefix1`, ..., holding
      the decoded element; entries outside the prefix are kept. */
  method PutIndexed(data: map<string, Bytes>, prefix: string, items: seq<string>, decode: string -> Bytes)
    returns (out: map<string, Bytes>)
    ensures out.Keys == data.Keys + IndexedKeys(prefix, |items|)
    ensures Laid(out, prefix, items, decode)
    ensures forall k :: k in data && !StartsWith(k, prefix) ==> out[k] == data[k]
  {
    out := data;
    var i := 0;
    while i < |items|
      invariant 0 <= i <= |items|
      invariant PutSoFar(data, out, prefix, items, decode, i)
    {
      PutStep(data, out, prefix, items, decode, i);
      out := out[IndexedKey(prefix, i) := decode(items[i])];
      i := i + 1;
    }
  }

  /** The admin and CA certificate entries (the first two loops). */
  method CertEntries(spec: OrdererSpec, decode: string -> Bytes) returns (data: map<string, Bytes>)
    ensures data.Keys == IndexedKeys(AdminCertPrefix, |spec.adminCerts|) + IndexedKeys(CaCertPrefix, |spec.caCerts|)
    ensures Laid(data, AdminCertPrefix, spec.adminCerts, decode) && Laid(data, CaCertPrefix, spec.caCerts, decode)
  {
    var admins := PutIndexed(map[], AdminCertPrefix, spec.adminCerts, decode);
    data := PutIndexed(admins, CaCertPrefix, spec.caCerts, decode);
    IndexedKeysAvoid(AdminCertPrefix, CaCertPrefix, 0);
    LaidKept(admins, data, AdminCertPrefix, spec.adminCerts, decode, CaCertPrefix);
  }

  /** The TLS CA certificate entries, then the TLS certificate and key;
      everything else already in `data` is kept. */
  method TlsEntries(data: map<string, Bytes>, spec: OrdererSpec, decode: string -> Bytes) returns (out: map<string, Bytes>)
    ensures out.Keys == data.Keys + IndexedKeys(TlsCaCertPrefix, |spec.tlsCacerts|) + {TlsCertKey, TlsKeyKey}
    ensures Laid(out, TlsCaCertPrefix, spec.tlsCacerts, decode)
    ensures out[TlsCertKey] == decode(spec.tls.tlsCert) && out[TlsKeyKey] == decode(spec.tls.tlsKey)
    ensures forall k :: k in data && !StartsWith(k, TlsCaCertPrefix) && k != TlsCertKey && k != TlsKeyKey ==>
      out[k] == data[k]
  {
    out := PutIndexed(data, TlsCaCertPrefix, spec.tlsCacerts, decode);
    IndexedKeysAvoid(TlsCaCertPrefix, TlsCertKey, 4);
    IndexedKeysAvoid(TlsCaCertPrefix, TlsKeyKey, 3);
    LaidUpdated(out, TlsCaCertPrefix, spec.tlsCacerts, decode, TlsCertKey, decode(spec.tls.tlsCert));
    out := out[TlsCertKey := decode(spec.tls.tlsCert)];
    LaidUpdated(out, TlsCaCertPrefix, spec.tlsCacerts, decode, TlsKeyKey, decode(spec.tls.tlsKey));
    out := out[TlsKeyKey := decode(spec.tls.tlsKey)];
  }

  /** The certificate entries and the fixed keys written before the TLS
      entries are still there once those are written. */
  lemma SecretEntriesKept(lists: map<string, Bytes>, keyed: map<string, Bytes>, data: map<string, Bytes>,
                          spec: OrdererSpec, decode: string -> Bytes, mspid: Bytes)
    requires lists.Keys == IndexedKeys(AdminCertPrefix, |spec.adminCerts|) + IndexedKeys(CaCertPrefix, |spec.caCerts|)
    requires Laid(lists, AdminCertPrefix, spec.adminCerts, decode) && Laid(lists, CaCertPrefix, spec.caCerts, decode)
    requires keyed == lists[KeystoreKey := decode(spec.keyStore)][SigncertKey := decode(spec.signCerts)][MspIdKey := mspid]
    requires data.Keys == keyed.Keys + IndexedKeys(TlsCaCertPrefix, |spec.tlsCacerts|) + {TlsCertKey, TlsKeyKey}
    requires forall k :: k in keyed && !StartsWith(k, TlsCaCertPrefix) && k != TlsCertKey && k != TlsKeyKey ==>
      data[k] == keyed[k]
    ensures Laid(data, AdminCertPrefix, spec.adminCerts, decode) && Laid(data, CaCertPrefix, spec.caCerts, decode)
    ensures data[KeystoreKey] == decode(spec.keyStore) && data[SigncertKey] == decode(spec.signCerts)
    ensures data[MspIdKey] == mspid
    ensures data.Keys == SecretDataKeys(spec)
  {
    SecretKeysApart();
    var k1 := lists[KeystoreKey := decode(spec.keyStore)];
    var k2 := k1[SigncertKey := decode(spec.signCerts)];
    LaidUpdated(lists, AdminCertPrefix, spec.adminCerts, decode, KeystoreKey, decode(spec.keyStore));
    LaidUpdated(k1, AdminCertPrefix, spec.adminCerts, decode, SigncertKey, decode(spec.signCerts));
    LaidUpdated(k2, AdminCertPrefix, spec.adminCerts, decode, MspIdKey, mspid);
    LaidUpdated(lists, CaCertPrefix, spec.caCerts, decode, KeystoreKey, decode(spec.keyStore));
    LaidUpdated(k1, CaCertPrefix, spec.caCerts, decode, SigncertKey, decode(spec.signCerts));
    LaidUpdated(k2, CaCertPrefix, spec.caCerts, decode, MspIdKey, mspid);
    forall k | k in keyed && !StartsWith(k, TlsCaCertPrefix)
      ensures k != TlsCertKey && k != TlsKeyKey && data[k] == keyed[k]
    {
      if k in lists {
        if k in IndexedKeys(AdminCertPrefix, |spec.adminCerts|) {
          var i: nat :| k == IndexedKey(AdminCertPrefix, i);
        } else {
          var i: nat :| k == IndexedKey(CaCertPrefix, i);
        }
      }
    }
    LaidKept(keyed, data, AdminCertPrefix, spec.adminCerts, decode, TlsCaCertPrefix);
    LaidKept(keyed, data, CaCertPrefix, spec.caCerts, decode, TlsCaCertPrefix);
  }

  /** Every certificate and key the secret needs is given. */
  predicate SecretFieldsPresent(spec: OrdererSpec) {
    |spec.adminCerts| > 0 && |spec.caCerts| > 0 && |spec.keyStore| > 0 && |spec.signCerts| > 0 &&
    |spec.tlsCacerts| > 0 && |spec.tls.tlsCert| > 0 && |spec.tls.tlsKey| > 0
  }

  function SecretDataKeys(spec: OrdererSpec): set<string> {
    IndexedKeys(AdminCertPrefix, |spec.adminCerts|) + IndexedKeys(CaCertPrefix, |spec.caCerts|) +
    IndexedKeys(TlsCaCertPrefix, |spec.tlsCacerts|) +
    {KeystoreKey, SigncertKey, MspIdKey, TlsCertKey, TlsKeyKey}
  }

  /** `s` is the secret built for `spec` from `template`: named after the
      request with the `-secret` suffix, one decoded entry per certificate,
      the decoded key material, and the MSP id taken from the signing
      certificate. */
  predicate IsSecretFor(s: Secret, template: Secret, spec: OrdererSpec, request: Request, codecs: Codecs) {
    && s.name == SecretName(request) && s.namespace == request.namespace && s.labels == template.labels
    && s.data.Keys == SecretDataKeys(spec)
    && Laid(s.data, AdminCertPrefix, spec.adminCerts, codecs.base64Decode)
    && Laid(s.data, CaCertPrefix, spec.caCerts, codecs.base64Decode)
    && Laid(s.data, TlsCaCertPrefix, spec.tlsCacerts, codecs.base64Decode)
    && KeystoreKey in s.data && s.data[KeystoreKey] == codecs.base64Decode(spec.keyStore)
    && SigncertKey in s.data && s.data[SigncertKey] == codecs.base64Decode(spec.signCerts)
    && TlsCertKey in s.data && s.data[TlsCertKey] == codecs.base64Decode(spec.tls.tlsCert)
    && TlsKeyKey in s.data && s.data[TlsKeyKey] == codecs.base64Decode(spec.tls.tlsKey)
    && MspIdKey in s.data && s.data[MspIdKey] == codecs.utf8(MspIdName(codecs, codecs.base64Decode(spec.signCerts)))
  }

  /** The `mspid` entry, computed step by step as the source does; its
      value is specified by `MspIdName`. */
  method MspIdFor(codecs: Codecs, signcert: Bytes) returns (mspid: Bytes)
    ensures mspid == codecs.utf8(MspIdName(codecs, signcert))
  {
    mspid := codecs.utf8(DefaultMspId);
    var block := codecs.pemDecode(signcert);
    if block.Some? {
      var cert := codecs.parseCertificate(block.value.bytes);
      if cert.Some? {
        if |cert.value.subjectOrganization| > 0 {
          mspid := codecs.utf8(cert.value.subjectOrganization[0]);
        } else if |cert.value.issuerOrganization| > 0 {
          mspid := codecs.utf8(cert.value.issuerOrganization[0]);
        }
      }
    }
  }

  /** `newSecretForCR`: no secret when the template is unusable or any
      certificate or key is missing; otherwise the secret for the spec. */
  method NewSecretForCR(template: Option<Secret>, cr: Orderer, request: Request, codecs: Codecs)
    returns (r: Option<Secret>)
    ensures r.Some? <==> template.Some? && SecretFieldsPresent(cr.spec)
    ensures r.Some? ==> IsSecretFor(r.value, template.value, cr.spec, request, codecs)
  {
    if template.None? {
      return None;
    }
    var spec := cr.spec;
    if !SecretFieldsPresent(spec) {
      return None;
    }
    var decode := codecs.base64Decode;
    var lists := CertEntries(spec, decode);
    var data := lists[KeystoreKey := decode(spec.keyStore)];
    data := data[SigncertKey := decode(spec.signCerts)];
    var mspid := MspIdFor(codecs, data[SigncertKey]);
    data := data[MspIdKey := mspid];
    ghost var keyed := data;
    data := TlsEntries(data, spec, decode);
    SecretEntriesKept(lists, keyed, data, spec, decode, mspid);
    r := Some(Secret(SecretName(request), request.namespace, template.value.labels, data));
  }

  // ---------------------------------------------------------------------
  // The service (`newServiceForCR`)
  // ---------------------------------------------------------------------

  /** `s` is the template's service, renamed after the request, with the
      app label and selector naming it; nothing else changes. */
  predicate IsServiceFor(s: Service, template: Service, request: Request) {
    && s.name == request.name && s.namespace == request.namespace
    && s.labels.Keys == template.labels.Keys + {AppLabel} && s.labels[AppLabel] == request.name
    && (forall k :: k in template.labels && k != AppLabel ==> s.labels[k] == template.labels[k])
    && s.selector.Keys == template.selector.Keys + {AppLabel} && s.selector[AppLabel] == request.name
    && (forall k :: k in template.selector && k != AppLabel ==> s.selector[k] == template.selector[k])
    && s.ports == template.ports
  }

  method NewServiceForCR(template: Option<Service>, request: Request) returns (r: Option<Service>)
    ensures r.Some? <==> template.Some?
    ensures r.Some? ==> IsServiceFor(r.value, template.value, request)
  {
    if template.None? {
      return None;
    }
    var service := template.value;
    service := service.(name := request.name, namespace := request.namespace);
    service := service.(labels := service.labels[AppLabel := service.name]);
    service := service.(selector := service.selector[AppLabel := service.name]);
    r := Some(service);
  }

  // ---------------------------------------------------------------------
  // The stateful set (`newSTSForCR`)
  // ---------------------------------------------------------------------

  /** The template has the first init container's and the first
      container's secret-backed variables that the controller points at
      the orderer's secret. */
  predicate StsTemplateShaped(t: StatefulSet) {
    |t.initEnv| > 0 && t.initEnv[0].secretKeyRef.Some? &&
    |t.containerEnv| > 0 && t.containerEnv[0].secretKeyRef.Some?
  }

  function WithSecretRef(e: EnvVar, secretName: string): EnvVar {
    e.(secretKeyRef := Some(secretName))
  }

  /** `s` is the template's stateful set for the request: named after it,
      every secret reference naming the orderer's secret, the defaults
      applied, and the container environment the template's followed by
      one literal variable per config parameter, in order. */
  predicate IsStsFor(s: StatefulSet, t: StatefulSet, spec: OrdererSpec, request: Request)
    requires StsTemplateShaped(t)
  {
    && s.name == request.name && s.namespace == request.namespace && s.serviceName == request.name
    && s.matchLabels == t.matchLabels[AppLabel := request.name]
    && s.templateLabels == t.templateLabels[AppLabel := request.name]
    && s.storageClassName == Some(GetDefault(spec.storageClass, DefaultStorageClass))
    && s.storageSize == GetDefault(spec.storageSize, DefaultStorageSize)
    && s.image == GetDefault(spec.image, DefaultImage)
    && s.volumeSecretName == SecretName(request)
    && s.initEnv == t.initEnv[0 := WithSecretRef(t.initEnv[0], SecretName(request))]
    && |s.containerEnv| == |t.containerEnv| + |spec.configParams|
    && s.containerEnv[0] == WithSecretRef(t.containerEnv[0], SecretName(request))
    && (forall i :: 0 < i < |t.containerEnv| ==> s.containerEnv[i] == t.containerEnv[i])
    && (forall i :: 0 <= i < |spec.configParams| ==>
          s.containerEnv[|t.containerEnv| + i] == EnvVar(spec.configParams[i].name, spec.configParams[i].value, None))
    && s.resources == spec.resources
  }

  method NewSTSForCR(template: Option<StatefulSet>, cr: Orderer, request: Request) returns (r: Option<StatefulSet>)
    requires template.Some? ==> StsTemplateShaped(template.value)
    ensures r.Some? <==> template.Some?
    ensures r.Some? ==> IsStsFor(r.value, template.value, cr.spec, request)
  {
    if template.None? {
      return None;
    }
    var t := template.value;
    var sts := t.(name := request.name, namespace := request.namespace);
    sts := sts.(serviceName := sts.name, matchLabels := sts.matchLabels[AppLabel := sts.name]);
    sts := sts.(storageClassName := Some(GetDefault(cr.spec.storageClass, DefaultStorageClass)));
    sts := sts.(storageSize := GetDefault(cr.spec.storageSize, DefaultStorageSize));
    sts := sts.(templateLabels := sts.templateLabels[AppLabel := sts.name]);
    sts := sts.(image := GetDefault(cr.spec.image, DefaultImage));
    sts := sts.(volumeSecretName := SecretName(request));
    sts := sts.(initEnv := sts.initEnv[0 := WithSecretRef(sts.initEnv[0], SecretName(request))]);
    sts := sts.(containerEnv := sts.containerEnv[0 := WithSecretRef(sts.containerEnv[0], SecretName(request))]);

    var containerEnvs := sts.containerEnv;
    var k := 0;
    while k < |cr.spec.configParams|
      invariant 0 <= k <= |cr.spec.configParams|
      invariant |containerEnvs| == |t.containerEnv| + k
      invariant containerEnvs[..|t.containerEnv|] == sts.containerEnv
      invariant forall i :: 0 <= i < k ==>
        containerEnvs[|t.containerEnv| + i] == EnvVar(cr.spec.configParams[i].name, cr.spec.configParams[i].value, None)
    {
      var e := cr.spec.configParams[k];
      containerEnvs := containerEnvs + [EnvVar(e.name, e.value, None)];
      k := k + 1;
    }
    sts := sts.(containerEnv := containerEnvs, resources := cr.spec.resources);
    assert forall i :: 0 <= i < |t.containerEnv| ==> containerEnvs[i] == containerEnvs[..|t.containerEnv|][i];
    r := Some(sts);
  }

  // ---------------------------------------------------------------------
  // The API server
  // ---------------------------------------------------------------------

  datatype Kind = OrdererKind | SecretKind | ServiceKind | StatefulSetKind

  datatype Key = Key(kind: Kind, namespace: string, name: string)

  datatype Object =
    | OrdererObj(orderer: Orderer)
    | SecretObj(secret: Secret)
    | ServiceObj(service: Service)
    | StatefulSetObj(statefulSet: StatefulSet)

  function KeyOf(obj: Object): Key {
    match obj
    case OrdererObj(o) => Key(OrdererKind, o.namespace, o.name)
    case SecretObj(s) => Key(SecretKind, s.namespace, s.name)
    case ServiceObj(s) => Key(ServiceKind, s.namespace, s.name)
    case StatefulSetObj(s) => Key(StatefulSetKind, s.namespace, s.name)
  }

  datatype ApiError = NotFound | AlreadyExists | Invalid | Unavailable

  datatype Fetch = Found(obj: Object) | FetchFailed(err: ApiError)

  /** How the API behaves during one reconcile pass: whether the
      configuration-map check fails, which reads fail outright, which reads
      come from a cache that has not yet seen the object (and so say
      NotFound), which creates fail, whether the status write fails, and the
      node addresses the cluster reports. */
  datatype Environment = Environment(configMapError: Option<ApiError>, getErrors: set<Key>,
                                     staleReads: set<Key>, createErrors: set<Key>,
                                     statusUpdateError: Option<ApiError>, nodeIPs: seq<string>)

  /** Every object is stored under its own kind, namespace and name. */
  predicate Stored(objects: map<Key, Object>) {
    forall k :: k in objects ==> KeyOf(objects[k]) == k
  }

  /** What a read of `key` answers, served from the cache. */
  function ReadObject(objects: map<Key, Object>, key: Key, env: Environment): (r: Fetch)
    ensures r.Found? <==> key in objects && key !in env.getErrors && key !in env.staleReads
    ensures r.Found? ==> r.obj == objects[key]
    ensures r.FetchFailed? ==> r.err == (if key in env.getErrors then Unavailable else NotFound)
  {
    if key in env.getErrors then FetchFailed(Unavailable)
    else if key !in objects || key in env.staleReads then FetchFailed(NotFound)
    else Found(objects[key])
  }

  /** The error a create of the object built for `key` returns; `built` is
      false when the builder gave no object. */
  function CreateError(built: bool, key: Key, objects: map<Key, Object>, env: Environment): Option<ApiError> {
    if !built then Some(Invalid)
    else if key in env.createErrors then Some(Unavailable)
    else if key in objects then Some(AlreadyExists)
    else None
  }

  /** The keys a step adds: `key` when its read says NotFound and the
      create succeeds, none otherwise. */
  function Made(built: bool, key: Key, objects: map<Key, Object>, env: Environment): set<Key> {
    if key !in env.getErrors && CreateError(built, key, objects, env).None? then {key} else {}
  }

  class Cluster {
    var objects: map<Key, Object>

    predicate Valid()
      reads this
    {
      Stored(objects)
    }

    constructor (objects: map<Key, Object>)
      requires Stored(objects)
      ensures this.objects == objects && Valid()
    {
      this.objects := objects;
    }

    /** `client.Get`. */
    function Get(key: Key, env: Environment): Fetch
      reads this
    {
      ReadObject(objects, key, env)
    }

    /** `client.Create`: a nil object is invalid, and an existing object is
      never replaced. */
    method Create(obj: Option<Object>, env: Environment) returns (err: Option<ApiError>)
      requires Valid()
      modifies this
      ensures Valid()
      ensures obj.None? ==> err == Some(Invalid) && objects == old(objects)
      ensures obj.Some? && KeyOf(obj.value) in env.createErrors ==> err == Some(Unavailable) && objects == old(objects)
      ensures obj.Some? && KeyOf(obj.value) !in env.createErrors && KeyOf(obj.value) in old(objects) ==>
        err == Some(AlreadyExists) && objects == old(objects)
      ensures obj.Some? && KeyOf(obj.value) !in env.createErrors && KeyOf(obj.value) !in old(objects) ==>
        err.None? && objects == old(objects)[KeyOf(obj.value) := obj.value]
    {
      if obj.None? {
        return Some(Invalid);
      }
      var key := KeyOf(obj.value);
      if key in env.createErrors {
        return Some(Unavailable);
      }
      if key in objects {
        return Some(AlreadyExists);
      }
      objects := objects[key := obj.value];
      err := None;
    }

    /** `client.Status().Update`: only the stored orderer's status changes. */
    method UpdateStatus(instance: Orderer, env: Environment) returns (err: Option<ApiError>)
      requires Valid()
      modifies this
      ensures Valid()
      ensures var key := KeyOf(OrdererObj(instance));
        && (env.statusUpdateError.Some? ==> err == env.statusUpdateError && objects == old(objects))
        && (env.statusUpdateError.None? && key !in old(objects) ==> err == Some(NotFound) && objects == old(objects))
        && (env.statusUpdateError.None? && key in old(objects) ==>
              (err.None? &&
               objects == old(objects)[key := OrdererObj(old(objects)[key].orderer.(accessPoint := instance.accessPoint))]))
    {
      var key := KeyOf(OrdererObj(instance));
      if env.statusUpdateError.Some? {
        return env.statusUpdateError;
      }
      if key !in objects {
        return Some(NotFound);
      }
      var stored := objects[key].orderer;
      objects := objects[key := OrdererObj(stored.(accessPoint := instance.accessPoint))];
      err := None;
    }
  }

  // ---------------------------------------------------------------------
  // Reconcile
  // ---------------------------------------------------------------------

  datatype Step =
    | ConfigMapStep | GetOrdererStep | CreateSecretStep | GetServiceStep | CreateServiceStep
    | UpdateStatusStep | GetStatefulSetStep | CreateStatefulSetStep

  /** `Result{}` with no error, `Result{Requeue: true}`, or an error
      returned from the named step (which also makes the controller retry). */
  datatype ReconcileResult = Done | Requeue | Failed(step: Step, err: ApiError)

  function OrdererKey(request: Request): Key { Key(OrdererKind, request.namespace, request.name) }
  function SecretKey(request: Request): Key { Key(SecretKind, request.namespace, SecretName(request)) }
  function ServiceKey(request: Request): Key { Key(ServiceKind, request.namespace, request.name) }
  function StsKey(request: Request): Key { Key(StatefulSetKind, request.namespace, request.name) }

  /** The orderer's status went from no access point to the one built from
      the service's first node port. */
  predicate AccessPointPublished(before: Orderer, after: Orderer, objects: map<Key, Object>,
                                 request: Request, env: Environment)
  {
    && before.accessPoint == ""
    && ServiceKey(request) in objects && objects[ServiceKey(request)].ServiceObj?
    && var ports := objects[ServiceKey(request)].service.ports;
       |ports| > 0 && ports[0].nodePort > 0 &&
       after == before.(accessPoint := AccessPoint(before.spec.hosts, env.nodeIPs, ports[0].nodePort))
  }

  /** The orderer was fetched: the steps after the fetch ran. */
  predicate Fetched(c: map<Key, Object>, request: Request, env: Environment) {
    env.configMapError.None? && OrdererKey(request) in c &&
    OrdererKey(request) !in env.getErrors && OrdererKey(request) !in env.staleReads
  }

  /** Turns a create error into the result that stops the pass. */
  function FailedCreate(step: Step, err: Option<ApiError>): Option<ReconcileResult> {
    if err.Some? then Some(Failed(step, err.value)) else None
  }

  /** How the secret step ends: a NotFound read leads to a create, whose
      failure stops the pass; any other read, failed or not, goes on. */
  function SecretStop(objects: map<Key, Object>, request: Request, cr: Orderer, template: Option<Secret>,
                      env: Environment): Option<ReconcileResult>
  {
    if ReadObject(objects, SecretKey(request), env) != FetchFailed(NotFound) then None
    else FailedCreate(CreateSecretStep,
                      CreateError(template.Some? && SecretFieldsPresent(cr.spec), SecretKey(request), objects, env))
  }

  /** How the service step ends: a NotFound read leads to a create, whose
      failure stops the pass; a failed read stops it too. */
  function ServiceStop(objects: map<Key, Object>, request: Request, template: Option<Service>,
                       env: Environment): Option<ReconcileResult>
  {
    match ReadObject(objects, ServiceKey(request), env)
    case Found(_) => None
    case FetchFailed(err) =>
      if err == NotFound then FailedCreate(CreateServiceStep, CreateError(template.Some?, ServiceKey(request), objects, env))
      else Some(Failed(GetServiceStep, err))
  }

  /** The ports of the service the pass goes on with: the stored service's,
      or after a create the template's, unless the read-back misses the new
      service and leaves the zero-valued one. */
  function ServicePorts(objects: map<Key, Object>, request: Request, template: Option<Service>,
                        env: Environment): seq<ServicePort>
    requires Stored(objects)
  {
    match ReadObject(objects, ServiceKey(request), env)
    case Found(obj) => obj.service.ports
    case FetchFailed(_) =>
      if ServiceKey(request) in env.staleReads || template.None? then [] else template.value.ports
  }

  /** How the access-point step ends for a service with ports. */
  function PublishStop(instance: Orderer, ports: seq<ServicePort>, env: Environment): Option<ReconcileResult>
    requires |ports| > 0
  {
    if instance.accessPoint != "" then None
    else if ports[0].nodePort <= 0 then Some(Requeue)
    else if env.statusUpdateError.Some? then Some(Failed(UpdateStatusStep, env.statusUpdateError.value))
    else None
  }

  /** How the stateful-set step ends: a NotFound read leads to a create,
      whose failure stops the pass unless it is AlreadyExists; a failed read
      stops it. */
  function StatefulSetStop(objects: map<Key, Object>, request: Request, template: Option<StatefulSet>,
                           env: Environment): Option<ReconcileResult>
  {
    match ReadObject(objects, StsKey(request), env)
    case Found(_) => None
    case FetchFailed(err) =>
      if err != NotFound then Some(Failed(GetStatefulSetStep, err))
      else
        var createErr := CreateError(template.Some?, StsKey(request), objects, env);
        if createErr == Some(AlreadyExists) then None else FailedCreate(CreateStatefulSetStep, createErr)
  }

  /** What a pass, or its tail, does: its result, the keys it creates, and
      whether it publishes the orderer's access point. */
  datatype Pass = Pass(result: ReconcileResult, created: set<Key>, published: bool)

  /** The steps once the service has ports: access point, then stateful set. */
  function ServedPass(objects: map<Key, Object>, request: Request, instance: Orderer, ports: seq<ServicePort>,
                      template: Option<StatefulSet>, env: Environment): Pass
    requires |ports| > 0
  {
    var publishStop := PublishStop(instance, ports, env);
    if publishStop.Some? then Pass(publishStop.value, {}, false)
    else
      var stsStop := StatefulSetStop(objects, request, template, env);
      Pass(if stsStop.Some? then stsStop.value else Done,
           Made(template.Some?, StsKey(request), objects, env), instance.accessPoint == "")
  }

  /** The steps once the secret is settled: service, the requeue while the
      service has no ports, then the served steps. */
  function SecuredPass(objects: map<Key, Object>, request: Request, instance: Orderer, templates: Templates,
                       env: Environment): Pass
    requires Stored(objects)
  {
    var serviceStop := ServiceStop(objects, request, templates.service, env);
    if serviceStop.Some? then Pass(serviceStop.value, {}, false)
    else
      var made := Made(templates.service.Some?, ServiceKey(request), objects, env);
      var ports := ServicePorts(objects, request, templates.service, env);
      if |ports| == 0 then Pass(Requeue, made, false)
      else
        var served := ServedPass(objects, request, instance, ports, templates.statefulSet, env);
        served.(created := made + served.created)
  }

  /** The steps after the orderer `instance` is read: the secret, then the
      secured steps. */
  function FoundPass(objects: map<Key, Object>, request: Request, instance: Orderer, templates: Templates,
                     env: Environment): Pass
    requires Stored(objects)
  {
    var secretStop := SecretStop(objects, request, instance, templates.secret, env);
    if secretStop.Some? then Pass(secretStop.value, {}, false)
    else
      var secured := SecuredPass(objects, request, instance, templates, env);
      secured.(created := Made(templates.secret.Some? && SecretFieldsPresent(instance.spec), SecretKey(request), objects, env)
                          + secured.created)
  }

  /** `a` and `b` hold the same object, or none, under `key`. */
  predicate AgreeAt(a: map<Key, Object>, b: map<Key, Object>, key: Key) {
    (key in a <==> key in b) && (key in a ==> a[key] == b[key])
  }

  /** The secured steps see only the service's and the stateful set's entries. */
  lemma SecuredPassFrame(a: map<Key, Object>, b: map<Key, Object>, request: Request, instance: Orderer,
                         templates: Templates, env: Environment)
    requires Stored(a) && Stored(b) && AgreeAt(a, b, ServiceKey(request)) && AgreeAt(a, b, StsKey(request))
    ensures SecuredPass(a, request, instance, templates, env) == SecuredPass(b, request, instance, templates, env)
  {
  }

  /** `after` is what a pass that went as `pass` leaves of `before`: the
      keys it creates are added, and the orderer `instance` is published
      or left as it was. */
  predicate Performed(before: map<Key, Object>, after: map<Key, Object>, pass: Pass, instance: Orderer,
                      request: Request, env: Environment)
  {
    && after.Keys == before.Keys + pass.created
    && OrdererKey(request) in after && after[OrdererKey(request)].OrdererObj?
    && (if pass.published
        then AccessPointPublished(instance, after[OrdererKey(request)].orderer, after, request, env)
        else after[OrdererKey(request)] == OrdererObj(instance))
  }

  /** Once the secret step has gone on, leaving `b`, a secured pass from
      `b` to `c` completes the found pass from `a`. */
  lemma PerformedAfterSecret(a: map<Key, Object>, b: map<Key, Object>, c: map<Key, Object>, request: Request,
                             instance: Orderer, templates: Templates, env: Environment)
    requires Stored(a) && Stored(b)
    requires SecretStop(a, request, instance, templates.secret, env).None?
    requires b.Keys == a.Keys + Made(templates.secret.Some? && SecretFieldsPresent(instance.spec), SecretKey(request), a, env)
    requires forall k :: k in a ==> k in b && b[k] == a[k]
    requires Performed(b, c, SecuredPass(b, request, instance, templates, env), instance, request, env)
    ensures SecuredPass(b, request, instance, templates, env).result == FoundPass(a, request, instance, templates, env).result
    ensures Performed(a, c, FoundPass(a, request, instance, templates, env), instance, request, env)
  {
    assert AgreeAt(a, b, ServiceKey(request)) && AgreeAt(a, b, StsKey(request));
    SecuredPassFrame(a, b, request, instance, templates, env);
  }

  /** The served steps see only the stateful set's entry. */
  lemma ServedPassFrame(a: map<Key, Object>, b: map<Key, Object>, request: Request, instance: Orderer,
                        ports: seq<ServicePort>, template: Option<StatefulSet>, env: Environment)
    requires |ports| > 0 && AgreeAt(a, b, StsKey(request))
    ensures ServedPass(a, request, instance, ports, template, env) == ServedPass(b, request, instance, ports, template, env)
  {
  }

  /** One reconcile pass over the stored `objects`. */
  function PassSpec(objects: map<Key, Object>, request: Request, templates: Templates, env: Environment): Pass
    requires Stored(objects)
  {
    if env.configMapError.Some? then Pass(Failed(ConfigMapStep, env.configMapError.value), {}, false)
    else
      match ReadObject(objects, OrdererKey(request), env)
      case Found(obj) => FoundPass(objects, request, obj.orderer, templates, env)
      case FetchFailed(err) =>
        if err == NotFound then Pass(Done, {}, false) else Pass(Failed(GetOrdererStep, err), {}, false)
  }

  class ReconcileOrderer {
    const client: Cluster

    constructor (client: Cluster)
      ensures this.client == client
    {
      this.client := client;
    }

    /** The secret step: read the secret and, on NotFound only, create the
      one built for `cr`; any other read error is ignored. */
    method EnsureSecret(request: Request, cr: Orderer, template: Option<Secret>, codecs: Codecs, env: Environment)
      returns (stop: Option<ReconcileResult>)
      requires client.Valid()
      modifies client
      ensures client.Valid()
      ensures stop.Some? ==>
        stop.value.Failed? && stop.value.step == CreateSecretStep &&
        client.objects == old(client.objects) && SecretKey(request) !in env.getErrors
      ensures forall k :: k in client.objects ==> k in old(client.objects) || k == SecretKey(request)
      ensures forall k :: k in old(client.objects) ==> k in client.objects && client.objects[k] == old(client.objects)[k]
      ensures SecretKey(request) !in old(client.objects) && SecretKey(request) in client.objects ==>
        SecretKey(request) !in env.getErrors && SecretKey(request) !in env.createErrors &&
        template.Some? && SecretFieldsPresent(cr.spec) && client.objects[SecretKey(request)].SecretObj? &&
        IsSecretFor(client.objects[SecretKey(request)].secret, template.value, cr.spec, request, codecs)
      ensures SecretKey(request) in env.getErrors ==> stop.None? && client.objects == old(client.objects)
      ensures stop.None? ==> SecretKey(request) in client.objects || SecretKey(request) in env.getErrors
      ensures stop == SecretStop(old(client.objects), request, cr, template, env)
      ensures client.objects.Keys ==
        old(client.objects).Keys + Made(template.Some? && SecretFieldsPresent(cr.spec), SecretKey(request), old(client.objects), env)
    {
      stop := None;
      var foundSecret := client.Get(SecretKey(request), env);
      if foundSecret == FetchFailed(NotFound) {
        var secret := NewSecretForCR(template, cr, request, codecs);
        var err := client.Create(if secret.Some? then Some(SecretObj(secret.value)) else None, env);
        if err.Some? {
          return Some(Failed(CreateSecretStep, err.value));
        }
      }
    }

    /** The service step: read the service; on NotFound create it and read
      it back, which the cache may not yet answer, leaving the zero-valued
      service; any other read error stops the pass. */
    method EnsureService(request: Request, template: Option<Service>, env: Environment)
      returns (service: Service, stop: Option<ReconcileResult>)
      requires client.Valid()
      modifies client
      ensures client.Valid()
      ensures stop.Some? ==>
        stop.value.Failed? && (stop.value.step == CreateServiceStep || stop.value.step == GetServiceStep) &&
        client.objects == old(client.objects)
      ensures ServiceKey(request) in env.getErrors ==> stop == Some(Failed(GetServiceStep, Unavailable))
      ensures forall k :: k in client.objects ==> k in old(client.objects) || k == ServiceKey(request)
      ensures forall k :: k in old(client.objects) ==> k in client.objects && client.objects[k] == old(client.objects)[k]
      ensures ServiceKey(request) !in old(client.objects) && ServiceKey(request) in client.objects ==>
        ServiceKey(request) !in env.getErrors && ServiceKey(request) !in env.createErrors &&
        template.Some? && client.objects[ServiceKey(request)].ServiceObj? &&
        IsServiceFor(client.objects[ServiceKey(request)].service, template.value, request)
      ensures stop.None? && |service.ports| > 0 ==>
        ServiceKey(request) in client.objects && client.objects[ServiceKey(request)] == ServiceObj(service)
      ensures stop == ServiceStop(old(client.objects), request, template, env)
      ensures stop.None? ==> service.ports == ServicePorts(old(client.objects), request, template, env)
      ensures client.objects.Keys ==
        old(client.objects).Keys + Made(template.Some?, ServiceKey(request), old(client.objects), env)
    {
      stop := None;
      var serviceKey := ServiceKey(request);
      var foundService := client.Get(serviceKey, env);
      if foundService == FetchFailed(NotFound) {
        var built := NewServiceForCR(template, request);
        var err := client.Create(if built.Some? then Some(ServiceObj(built.value)) else None, env);
        if err.Some? {
          return EmptyService, Some(Failed(CreateServiceStep, err.value));
        }
        var reread := client.Get(serviceKey, env);
        service := if reread.Found? then reread.obj.service else EmptyService;
      } else if foundService.FetchFailed? {
        return EmptyService, Some(Failed(GetServiceStep, foundService.err));
      } else {
        service := foundService.obj.service;
      }
    }

    /** The stateful-set step: read it and, on NotFound only, create the one
      built for `cr`; a create that finds it already there is tolerated. */
    method EnsureStatefulSet(request: Request, cr: Orderer, template: Option<StatefulSet>, env: Environment)
      returns (stop: Option<ReconcileResult>)
      requires client.Valid()
      requires template.Some? ==> StsTemplateShaped(template.value)
      modifies client
      ensures client.Valid()
      ensures stop.Some? ==>
        stop.value.Failed? && stop.value != Failed(CreateStatefulSetStep, AlreadyExists) &&
        (stop.value.step == GetStatefulSetStep || stop.value.step == CreateStatefulSetStep) &&
        client.objects == old(client.objects)
      ensures forall k :: k in client.objects ==> k in old(client.objects) || k == StsKey(request)
      ensures forall k :: k in old(client.objects) ==> k in client.objects && client.objects[k] == old(client.objects)[k]
      ensures StsKey(request) !in old(client.objects) && StsKey(request) in client.objects ==>
        StsKey(request) !in env.getErrors && StsKey(request) !in env.createErrors &&
        template.Some? && client.objects[StsKey(request)].StatefulSetObj? &&
        IsStsFor(client.objects[StsKey(request)].statefulSet, template.value, cr.spec, request)
      ensures stop.None? ==> StsKey(request) in client.objects
      ensures stop == StatefulSetStop(old(client.objects), request, template, env)
      ensures client.objects.Keys ==
        old(client.objects).Keys + Made(template.Some?, StsKey(request), old(client.objects), env)
    {
      stop := None;
      var stsKey := StsKey(request);
      var foundSts := client.Get(stsKey, env);
      if foundSts == FetchFailed(NotFound) {
        var sts := NewSTSForCR(template, cr, request);
        var err := client.Create(if sts.Some? then Some(StatefulSetObj(sts.value)) else None, env);
        if err.Some? && err.value != AlreadyExists {
          return Some(Failed(CreateStatefulSetStep, err.value));
        }
      } else if foundSts.FetchFailed? {
        return Some(Failed(GetStatefulSetStep, foundSts.err));
      }
    }

    /** The access-point step: with no access point yet, publish the one
      built from the service's first node port, or requeue while that port
      is not assigned; an access point once set is left alone. The source
      reads the orderer again first; nothing has written it since, so it is
      unchanged. */
    method PublishAccessPoint(request: Request, instance: Orderer, service: Service, env: Environment)
      returns (current: Orderer, stop: Option<ReconcileResult>)
      requires client.Valid()
      requires OrdererKey(request) in client.objects && client.objects[OrdererKey(request)] == OrdererObj(instance)
      requires ServiceKey(request) in client.objects && client.objects[ServiceKey(request)] == ServiceObj(service)
      requires |service.ports| > 0
      modifies client
      ensures client.Valid()
      ensures client.objects.Keys == old(client.objects).Keys
      ensures forall k :: k in old(client.objects) && k != OrdererKey(request) ==> client.objects[k] == old(client.objects)[k]
      ensures stop.Some? ==>
        client.objects == old(client.objects) &&
        (stop.value == Requeue || (stop.value.Failed? && stop.value.step == UpdateStatusStep))
      ensures stop.None? ==>
        client.objects[OrdererKey(request)] == OrdererObj(current) && current.accessPoint != "" && current.spec == instance.spec
      ensures client.objects[OrdererKey(request)] == OrdererObj(instance) ||
        AccessPointPublished(instance, client.objects[OrdererKey(request)].orderer, client.objects, request, env)
      ensures stop == PublishStop(instance, service.ports, env)
      ensures stop.None? && instance.accessPoint == "" ==>
        AccessPointPublished(instance, current, client.objects, request, env)
      ensures instance.accessPoint != "" ==> current == instance && client.objects == old(client.objects)
    {
      current := instance;
      stop := None;
      if instance.accessPoint == "" {
        var nodePort := service.ports[0].nodePort;
        if nodePort > 0 {
          current := instance.(accessPoint := AccessPoint(instance.spec.hosts, env.nodeIPs, nodePort));
          var err := client.UpdateStatus(current, env);
          if err.Some? {
            return instance, Some(Failed(UpdateStatusStep, err.value));
          }
        } else {
          return instance, Some(Requeue);
        }
      }
    }

    /** The steps once the service has ports: access point, then stateful set. */
    method ReconcileServed(request: Request, instance: Orderer, service: Service, template: Option<StatefulSet>,
                           env: Environment)
      returns (result: ReconcileResult)
      requires client.Valid()
      requires OrdererKey(request) in client.objects && client.objects[OrdererKey(request)] == OrdererObj(instance)
      requires ServiceKey(request) in client.objects && client.objects[ServiceKey(request)] == ServiceObj(service)
      requires |service.ports| > 0
      requires template.Some? ==> StsTemplateShaped(template.value)
      modifies client
      ensures client.Valid()
      ensures forall k :: k in client.objects ==> k in old(client.objects) || k == StsKey(request)
      ensures forall k :: k in old(client.objects) && k != OrdererKey(request) ==>
        k in client.objects && client.objects[k] == old(client.objects)[k]
      ensures OrdererKey(request) in client.objects
      ensures client.objects[OrdererKey(request)] == OrdererObj(instance) ||
        AccessPointPublished(instance, client.objects[OrdererKey(request)].orderer, client.objects, request, env)
      ensures StsKey(request) !in old(client.objects) && StsKey(request) in client.objects ==>
        StsKey(request) !in env.getErrors && template.Some? && client.objects[StsKey(request)].StatefulSetObj? &&
        IsStsFor(client.objects[StsKey(request)].statefulSet, template.value, instance.spec, request)
      ensures result != Failed(CreateStatefulSetStep, AlreadyExists)
      ensures result == Requeue ==>
        client.objects[OrdererKey(request)] == OrdererObj(instance) &&
        (StsKey(request) in client.objects <==> StsKey(request) in old(client.objects))
      ensures result == Done ==>
        StsKey(request) in client.objects && client.objects[OrdererKey(request)].orderer.accessPoint != ""
      ensures result.Failed? ==> result.step in {UpdateStatusStep, GetStatefulSetStep, CreateStatefulSetStep}
      ensures var pass := ServedPass(old(client.objects), request, instance, service.ports, template, env);
        result == pass.result && Performed(old(client.objects), client.objects, pass, instance, request, env)
    {
      var current, stop := PublishAccessPoint(request, instance, service, env);
      if stop.Some? {
        return stop.value;
      }
      stop := EnsureStatefulSet(request, current, template, env);
      if stop.Some? {
        return stop.value;
      }
      return Done;
    }

    /** The steps once the secret is settled: service, the requeue while
      it has no ports, access point, stateful set. */
    method ReconcileSecured(request: Request, instance: Orderer, templates: Templates, env: Environment)
      returns (result: ReconcileResult)
      requires client.Valid()
      requires OrdererKey(request) in client.objects && client.objects[OrdererKey(request)] == OrdererObj(instance)
      requires templates.statefulSet.Some? ==> StsTemplateShaped(templates.statefulSet.value)
      modifies client
      ensures client.Valid()
      ensures forall k :: k in client.objects ==> k in old(client.objects) || k == ServiceKey(request) || k == StsKey(request)
      ensures forall k :: k in old(client.objects) && k != OrdererKey(request) ==>
        k in client.objects && client.objects[k] == old(client.objects)[k]
      ensures OrdererKey(request) in client.objects
      ensures ServiceKey(request) !in old(client.objects) && ServiceKey(request) in client.objects ==>
        ServiceKey(request) !in env.getErrors && templates.service.Some? && client.objects[ServiceKey(request)].ServiceObj? &&
        IsServiceFor(client.objects[ServiceKey(request)].service, templates.service.value, request)
      ensures StsKey(request) !in old(client.objects) && StsKey(request) in client.objects ==>
        StsKey(request) !in env.getErrors && templates.statefulSet.Some? && client.objects[StsKey(request)].StatefulSetObj? &&
        IsStsFor(client.objects[StsKey(request)].statefulSet, templates.statefulSet.value, instance.spec, request)
      ensures ServiceKey(request) in env.getErrors ==> result == Failed(GetServiceStep, Unavailable)
      ensures result != Failed(CreateStatefulSetStep, AlreadyExists)
      ensures result == Requeue ==>
        client.objects[OrdererKey(request)] == OrdererObj(instance) &&
        (StsKey(request) in client.objects <==> StsKey(request) in old(client.objects))
      ensures result == Done ==>
        ServiceKey(request) in client.objects && StsKey(request) in client.objects &&
        client.objects[OrdererKey(request)].orderer.accessPoint != ""
      ensures result != Done ==> result == Requeue || (result.Failed? && result.step != CreateSecretStep)
      ensures var pass := SecuredPass(old(client.objects), request, instance, templates, env);
        result == pass.result && Performed(old(client.objects), client.objects, pass, instance, request, env)
    {
      ghost var before := client.objects;
      var service, stop := EnsureService(request, templates.service, env);
      if stop.Some? {
        return stop.value;
      }
      if |service.ports| == 0 {
        return Requeue;
      }
      assert AgreeAt(before, client.objects, StsKey(request));
      ServedPassFrame(before, client.objects, request, instance, service.ports, templates.statefulSet, env);
      result := ReconcileServed(request, instance, service, templates.statefulSet, env);
    }

    /** The steps after the orderer `instance` has been read: secret,
      service, access point, stateful set. */
    method ReconcileFound(request: Request, instance: Orderer, templates: Templates, codecs: Codecs, env: Environment)
      returns (result: ReconcileResult)
      requires client.Valid()
      requires OrdererKey(request) in client.objects && client.objects[OrdererKey(request)] == OrdererObj(instance)
      requires templates.statefulSet.Some? ==> StsTemplateShaped(templates.statefulSet.value)
      modifies client
      ensures client.Valid()
      ensures forall k :: k in client.objects ==>
        k in old(client.objects) || k == SecretKey(request) || k == ServiceKey(request) || k == StsKey(request)
      ensures forall k :: k in old(client.objects) && k != OrdererKey(request) ==>
        k in client.objects && client.objects[k] == old(client.objects)[k]
      ensures OrdererKey(request) in client.objects
      ensures client.objects[OrdererKey(request)] == OrdererObj(instance) ||
        AccessPointPublished(instance, client.objects[OrdererKey(request)].orderer, client.objects, request, env)
      ensures SecretKey(request) !in old(client.objects) && SecretKey(request) in client.objects ==>
        SecretKey(request) !in env.getErrors && templates.secret.Some? && client.objects[SecretKey(request)].SecretObj? &&
        IsSecretFor(client.objects[SecretKey(request)].secret, templates.secret.value, instance.spec, request, codecs)
      ensures ServiceKey(request) !in old(client.objects) && ServiceKey(request) in client.objects ==>
        ServiceKey(request) !in env.getErrors && templates.service.Some? && client.objects[ServiceKey(request)].ServiceObj? &&
        IsServiceFor(client.objects[ServiceKey(request)].service, templates.service.value, request)
      ensures StsKey(request) !in old(client.objects) && StsKey(request) in client.objects ==>
        StsKey(request) !in env.getErrors && templates.statefulSet.Some? && client.objects[StsKey(request)].StatefulSetObj? &&
        IsStsFor(client.objects[StsKey(request)].statefulSet, templates.statefulSet.value, instance.spec, request)
      ensures SecretKey(request) in env.getErrors ==>
        (SecretKey(request) in client.objects <==> SecretKey(request) in old(client.objects)) &&
        !(result.Failed? && result.step == CreateSecretStep)
      ensures ServiceKey(request) in env.getErrors ==>
        result == Failed(GetServiceStep, Unavailable) || (result.Failed? && result.step == CreateSecretStep)
      ensures result != Failed(CreateStatefulSetStep, AlreadyExists)
      ensures result == Requeue ==>
        client.objects[OrdererKey(request)] == OrdererObj(instance) &&
        (StsKey(request) in client.objects <==> StsKey(request) in old(client.objects))
      ensures result == Done ==>
        ServiceKey(request) in client.objects && StsKey(request) in client.objects &&
        client.objects[OrdererKey(request)].orderer.accessPoint != "" &&
        (SecretKey(request) in client.objects || SecretKey(request) in env.getErrors)
      ensures result != Done ==> result == Requeue || result.Failed?
      ensures var pass := FoundPass(old(client.objects), request, instance, templates, env);
        result == pass.result && Performed(old(client.objects), client.objects, pass, instance, request, env)
    {
      ghost var before := client.objects;
      var stop := EnsureSecret(request, instance, templates.secret, codecs, env);
      if stop.Some? {
        return stop.value;
      }
      ghost var secured := client.objects;
      result := ReconcileSecured(request, instance, templates, env);
      PerformedAfterSecret(before, secured, client.objects, request, instance, templates, env);
    }

    /** One reconcile pass for `request`. */
    method Reconcile(request: Request, templates: Templates, codecs: Codecs, env: Environment)
      returns (result: ReconcileResult)
      requires client.Valid()
      requires templates.statefulSet.Some? ==> StsTemplateShaped(templates.statefulSet.value)
      modifies client
      ensures client.Valid()
      // Before the orderer is fetched nothing is written.
      ensures env.configMapError.Some? ==>
        result == Failed(ConfigMapStep, env.configMapError.value) && client.objects == old(client.objects)
      ensures env.configMapError.None? && old(client.Get(OrdererKey(request), env)) == FetchFailed(NotFound) ==>
        result == Done && client.objects == old(client.objects)
      ensures env.configMapError.None? && OrdererKey(request) in env.getErrors ==>
        result == Failed(GetOrdererStep, Unavailable) && client.objects == old(client.objects)
      // Objects are only ever created, never replaced, and only these three.
      ensures forall k :: k in client.objects ==>
        k in old(client.objects) || k == SecretKey(request) || k == ServiceKey(request) || k == StsKey(request)
      ensures forall k :: k in old(client.objects) && k != OrdererKey(request) ==>
        k in client.objects && client.objects[k] == old(client.objects)[k]
      // The orderer changes only by publishing its first access point.
      ensures OrdererKey(request) in old(client.objects) ==>
        OrdererKey(request) in client.objects &&
        (client.objects[OrdererKey(request)] == old(client.objects)[OrdererKey(request)] ||
         AccessPointPublished(old(client.objects)[OrdererKey(request)].orderer,
                              client.objects[OrdererKey(request)].orderer, client.objects, request, env))
      // Creation happens only after a NotFound read, from a usable template
      // (what is created is stated by the step methods).
      ensures SecretKey(request) !in old(client.objects) && SecretKey(request) in client.objects ==>
        Fetched(old(client.objects), request, env) && SecretKey(request) !in env.getErrors &&
        templates.secret.Some? && client.objects[SecretKey(request)].SecretObj? &&
        IsSecretFor(client.objects[SecretKey(request)].secret, templates.secret.value,
                    old(client.objects)[OrdererKey(request)].orderer.spec, request, codecs)
      ensures ServiceKey(request) !in old(client.objects) && ServiceKey(request) in client.objects ==>
        Fetched(old(client.objects), request, env) && ServiceKey(request) !in env.getErrors &&
        templates.service.Some? && client.objects[ServiceKey(request)].ServiceObj? &&
        IsServiceFor(client.objects[ServiceKey(request)].service, templates.service.value, request)
      ensures StsKey(request) !in old(client.objects) && StsKey(request) in client.objects ==>
        Fetched(old(client.objects), request, env) && StsKey(request) !in env.getErrors &&
        templates.statefulSet.Some? && client.objects[StsKey(request)].StatefulSetObj? &&
        IsStsFor(client.objects[StsKey(request)].statefulSet, templates.statefulSet.value,
                 old(client.objects)[OrdererKey(request)].orderer.spec, request)
      // A failed secret read is ignored; an existing stateful set is tolerated.
      ensures SecretKey(request) in env.getErrors ==>
        (SecretKey(request) in client.objects <==> SecretKey(request) in old(client.objects)) &&
        !(result.Failed? && result.step == CreateSecretStep)
      ensures Fetched(old(client.objects), request, env) && ServiceKey(request) in env.getErrors ==>
        result == Failed(GetServiceStep, Unavailable) || (result.Failed? && result.step == CreateSecretStep)
      ensures result != Failed(CreateStatefulSetStep, AlreadyExists)
      // Requeue writes nothing after the service.
      ensures result == Requeue ==>
        Fetched(old(client.objects), request, env) &&
        client.objects[OrdererKey(request)] == old(client.objects)[OrdererKey(request)] &&
        (StsKey(request) in client.objects <==> StsKey(request) in old(client.objects))
      // A completed pass leaves the service, the stateful set and a published access point.
      ensures result == Done && Fetched(old(client.objects), request, env) ==>
        ServiceKey(request) in client.objects && StsKey(request) in client.objects &&
        client.objects[OrdererKey(request)].orderer.accessPoint != "" &&
        (SecretKey(request) in client.objects || SecretKey(request) in env.getErrors)
      // The pass does what its specification says.
      ensures var pass := PassSpec(old(client.objects), request, templates, env);
        && result == pass.result
        && client.objects.Keys == old(client.objects).Keys + pass.created
        && (OrdererKey(request) in old(client.objects) ==>
              if pass.published
              then AccessPointPublished(old(client.objects)[OrdererKey(request)].orderer,
                                        client.objects[OrdererKey(request)].orderer, client.objects, request, env)
              else client.objects[OrdererKey(request)] == old(client.objects)[OrdererKey(request)])
    {
      if env.configMapError.Some? {
        return Failed(ConfigMapStep, env.configMapError.value);
      }
      var fetched := client.Get(OrdererKey(request), env);
      if fetched.FetchFailed? {
        if fetched.err == NotFound {
          return Done;
        }
        return Failed(GetOrdererStep, fetched.err);
      }
      result := ReconcileFound(request, fetched.obj.orderer, templates, codecs, env);
    }
  }

  // ---------------------------------------------------------------------
  // What a pass does
  // ---------------------------------------------------------------------

  /** Nothing fails and every read is current. */
  predicate Clean(env: Environment) {
    && env.configMapError.None? && env.getErrors == {} && env.staleReads == {}
    && env.createErrors == {} && env.statusUpdateError.None?
  }

  /** A pass creates only the orderer's secret, service and stateful set,
      each only when it was missing, and publishes only an empty access
      point. */
  lemma PassCreatesOnlyMissing(objects: map<Key, Object>, request: Request, templates: Templates, env: Environment)
    requires Stored(objects)
    ensures var pass := PassSpec(objects, request, templates, env);
      && pass.created <= {SecretKey(request), ServiceKey(request), StsKey(request)}
      && (forall k :: k in pass.created ==> k !in objects && k !in env.getErrors)
      && (pass.published ==> OrdererKey(request) in objects && objects[OrdererKey(request)].orderer.accessPoint == "")
  {
  }

  /** For a new orderer in a clean cluster, one pass creates the secret,
      the service and the stateful set, publishes the access point and is
      done. */
  lemma NewOrdererCompletes(objects: map<Key, Object>, request: Request, templates: Templates, env: Environment)
    requires Stored(objects) && Clean(env)
    requires OrdererKey(request) in objects && objects[OrdererKey(request)].orderer.accessPoint == ""
    requires SecretKey(request) !in objects && ServiceKey(request) !in objects && StsKey(request) !in objects
    requires templates.secret.Some? && SecretFieldsPresent(objects[OrdererKey(request)].orderer.spec)
    requires templates.service.Some? && templates.statefulSet.Some?
    requires |templates.service.value.ports| > 0 && templates.service.value.ports[0].nodePort > 0
    ensures PassSpec(objects, request, templates, env) ==
      Pass(Done, {SecretKey(request), ServiceKey(request), StsKey(request)}, true)
  {
  }

  /** Once the secret, a service with ports, the stateful set and the
      access point are in place, a clean pass is done and writes nothing. */
  lemma SettledOrdererIsQuiet(objects: map<Key, Object>, request: Request, templates: Templates, env: Environment)
    requires Stored(objects) && Clean(env)
    requires OrdererKey(request) in objects && objects[OrdererKey(request)].orderer.accessPoint != ""
    requires SecretKey(request) in objects && StsKey(request) in objects
    requires ServiceKey(request) in objects && |objects[ServiceKey(request)].service.ports| > 0
    ensures PassSpec(objects, request, templates, env) == Pass(Done, {}, false)
  {
  }

  /** A cache that has not yet seen a stored secret makes the pass try to
      create it again, which fails with AlreadyExists and ends the pass. */
  lemma StaleSecretReadFails(objects: map<Key, Object>, request: Request, templates: Templates, env: Environment)
    requires Stored(objects) && env.configMapError.None?
    requires OrdererKey(request) in objects && OrdererKey(request) !in env.getErrors + env.staleReads
    requires SecretKey(request) in objects && SecretKey(request) in env.staleReads
    requires SecretKey(request) !in env.getErrors + env.createErrors
    requires templates.secret.Some? && SecretFieldsPresent(objects[OrdererKey(request)].orderer.spec)
    ensures PassSpec(objects, request, templates, env) == Pass(Failed(CreateSecretStep, AlreadyExists), {}, false)
  {
  }

  /** The same stale read of a stored stateful set is tolerated: the step
      goes on and creates nothing. */
  lemma StaleStatefulSetTolerated(objects: map<Key, Object>, request: Request, template: Option<StatefulSet>,
                                  env: Environment)
    requires StsKey(request) in objects && StsKey(request) in env.staleReads
    requires StsKey(request) !in env.getErrors + env.createErrors && template.Some?
    ensures StatefulSetStop(objects, request, template, env).None?
    ensures Made(template.Some?, StsKey(request), objects, env) == {}
  {
  }

  /** While the service has no node port, an orderer without an access
      point is requeued, and the stateful set is not touched. */
  lemma UnassignedNodePortRequeues(objects: map<Key, Object>, request: Request, instance: Orderer,
                                   ports: seq<ServicePort>, template: Option<StatefulSet>, env: Environment)
    requires |ports| > 0 && ports[0].nodePort <= 0 && instance.accessPoint == ""
    ensures ServedPass(objects, request, instance, ports, template, env) == Pass(Requeue, {}, false)
  {
  }

  /** A failed stateful-set read ends the pass with that error once the
      access point is in place. */
  lemma StatefulSetReadErrorAborts(objects: map<Key, Object>, request: Request, instance: Orderer,
                                   ports: seq<ServicePort>, template: Option<StatefulSet>, env: Environment)
    requires |ports| > 0 && PublishStop(instance, ports, env).None? && StsKey(request) in env.getErrors
    ensures ServedPass(objects, request, instance, ports, template, env) ==
      Pass(Failed(GetStatefulSetStep, Unavailable), {}, instance.accessPoint == "")
  {
  }

  /** A done pass over a fetched orderer leaves the service, the stateful
      set and an access point in place, and the secret unless its read
      failed. */
  lemma DonePassLeavesAllInPlace(objects: map<Key, Object>, request: Request, templates: Templates, env: Environment)
    requires Stored(objects) && Fetched(objects, request, env)
    requires PassSpec(objects, request, templates, env).result == Done
    ensures var pass := PassSpec(objects, request, templates, env);
      && ServiceKey(request) in objects.Keys + pass.created
      && StsKey(request) in objects.Keys + pass.created
      && (SecretKey(request) in objects.Keys + pass.created || SecretKey(request) in env.getErrors)
      && (objects[OrdererKey(request)].orderer.accessPoint != "" || pass.published)
  {
  }
}
