/** The per-host PKI issuer (app/services/tlsCertService.go): a self-signed
    root CA and a server and a client leaf signed by it, each PEM-wrapped.

    Cryptography is symbolic. A private key is an opaque value drawn from the
    environment, a certificate is the term that x509.CreateCertificate would
    sign (template, parent, subject public key, signing key) and a PEM block is
    its type label around its DER body (section 5 of RFC 7468). Randomness, the
    clock and the failures of the crypto library arrive as `Draws`. */
module TlsCertService {
  import opened Errors

  const Second := 1_000_000_000  // time.Duration counts nanoseconds
  const Hour := 3600 * Second
  const TenYears := Hour * 24 * 365 * 10

  /** new(big.Int).Lsh(big.NewInt(1), 128): the exclusive bound of random serials. */
  const SerialLimit := 0x1_0000_0000_0000_0000_0000_0000_0000_0000
  type Serial = n: nat | n < SerialLimit

  const ClientSerial := 4

  datatype KeyUsage = DigitalSignature | KeyEncipherment | CertSign
  datatype ExtKeyUsage = ClientAuth | ServerAuth

  /** The x509.Certificate fields the worker sets (section 4.1 of RFC 5280). */
  datatype Template = Template(
    serialNumber: nat,
    notBefore: int,
    notAfter: int,
    keyUsage: set<KeyUsage>,
    extKeyUsage: seq<ExtKeyUsage>,
    basicConstraintsValid: bool,
    isCA: bool,
    ipAddresses: seq<string>)

  /** An ECDSA P-256 private key, known by the draw that produced it. */
  datatype PrivateKey = EcKey(id: nat)
  datatype PublicKey = PublicOf(key: PrivateKey)

  /** What x509.CreateCertificate(rand, template, parent, pub, priv) signs. */
  datatype Certificate = Certificate(template: Template, issuer: Template, subjectKey: PublicKey, signer: PrivateKey)

  datatype PemBody = KeyDer(key: PrivateKey) | CertDer(cert: Certificate)
  datatype Pem = Pem(blockType: string, body: PemBody)

  const KeyBlockType := "EC PRIVATE KEY"
  const CertBlockType := "CERTIFICATE"

  /** The environment's answers for one generateXParts call: the random serial,
      the key generation, the key marshalling, the two clock reads (NotBefore
      and NotAfter each call time.Now()) and the signing. */
  datatype Draws = Draws(
    serial: Serial,
    key: Result<PrivateKey>,
    marshalErr: Option<Error>,
    notBeforeNow: int,
    notAfterNow: int,
    signErr: Option<Error>)

  /** The six PEM blocks CreatePEMs hands back, named as the source names them. */
  datatype PemContainer = PemContainer(
    ServerCAPEM: Pem, ClientCAPEM: Pem,
    ServerKeyPEM: Pem, ServerCertPEM: Pem,
    ClientKeyPEM: Pem, ClientCertPEM: Pem)

  datatype RootParts = RootParts(keyPem: Pem, certPem: Pem, key: PrivateKey, template: Template)
  datatype LeafParts = LeafParts(keyPem: Pem, certPem: Pem)

  // ---------------------------------------------------------------------------
  // Reading a PEM block back (pem.Decode followed by x509.Parse*).

  function EncodeKey(k: PrivateKey): Pem {
    Pem(KeyBlockType, KeyDer(k))
  }

  function EncodeCert(c: Certificate): Pem {
    Pem(CertBlockType, CertDer(c))
  }

  function CertOf(p: Pem): Option<Certificate> {
    if p.blockType == CertBlockType && p.body.CertDer? then Some(p.body.cert) else None
  }

  function KeyOf(p: Pem): Option<PrivateKey> {
    if p.blockType == KeyBlockType && p.body.KeyDer? then Some(p.body.key) else None
  }

  // ---------------------------------------------------------------------------
  // The certificate profile each part must meet, in the terms of RFC 5280.

  /** A CA certificate: basic constraints valid with cA set (section 4.2.1.9
      of RFC 5280) and keyCertSign asserted (section 4.2.1.3 of RFC 5280). */
  predicate IsCaCertificate(c: Certificate) {
    c.template.basicConstraintsValid && c.template.isCA && CertSign in c.template.keyUsage
  }

  /** Issued by its own subject and signed with the key it certifies. */
  predicate SelfSigned(c: Certificate) {
    c.issuer == c.template && c.subjectKey == PublicOf(c.signer)
  }

  /** `leaf` names `ca` as its issuer and verifies under `ca`'s public key. */
  predicate IssuedBy(leaf: Certificate, ca: Certificate) {
    leaf.issuer == ca.template && PublicOf(leaf.signer) == ca.subjectKey
  }

  /** A TLS server leaf for `ip`: not a CA, usable for key agreement and
      server authentication (sections 4.2.1.3 and 4.2.1.12 of RFC 5280), with
      `ip` as its only subject alternative name (section 4.2.1.6 of RFC 5280). */
  predicate IsServerLeafFor(c: Certificate, ip: string) {
    && c.template.basicConstraintsValid && !c.template.isCA
    && DigitalSignature in c.template.keyUsage
    && ServerAuth in c.template.extKeyUsage
    && c.template.ipAddresses == [ip]
  }

  /** A TLS client leaf: not a CA, client authentication only, no IP names. */
  predicate IsClientLeaf(c: Certificate) {
    && c.template.basicConstraintsValid && !c.template.isCA
    && DigitalSignature in c.template.keyUsage
    && c.template.extKeyUsage == [ClientAuth]
    && c.template.ipAddresses == []
  }

  /** The validity window (section 4.1.2.5 of RFC 5280) opens at the first
      clock read and closes ten years after the second. */
  predicate TenYearWindow(t: Template, d: Draws) {
    t.notBefore == d.notBeforeNow && t.notAfter == d.notAfterNow + TenYears
  }

  // ---------------------------------------------------------------------------
  // The three generators.

  /** The first failure among key generation, key marshalling and signing. */
  function FirstFailure(d: Draws): Option<Error> {
    if d.key.Fail? then Some(d.key.error)
    else if d.marshalErr.Some? then d.marshalErr
    else d.signErr
  }

  function RootTemplate(d: Draws): Template {
    Template(d.serial, d.notBeforeNow, d.notAfterNow + TenYears, {CertSign}, [], true, true, [])
  }

  function ServerTemplate(d: Draws, serverIP: string): Template {
    Template(d.serial, d.notBeforeNow, d.notAfterNow + TenYears,
             {DigitalSignature, KeyEncipherment}, [ClientAuth, ServerAuth], true, false, [serverIP])
  }

  function ClientTemplate(d: Draws): Template {
    Template(ClientSerial, d.notBeforeNow, d.notAfterNow + TenYears,
             {DigitalSignature}, [ClientAuth], true, false, [])
  }

  /** generateRootParts: a fresh key and a self-signed CA certificate over it. */
  function GenerateRootParts(d: Draws): (r: Result<RootParts>)
    ensures r.Fail? <==> FirstFailure(d).Some?
    ensures r.Fail? ==> Some(r.error) == FirstFailure(d)
    ensures r.Ok? ==>
      && d.key == Ok(r.value.key)
      && KeyOf(r.value.keyPem) == Some(r.value.key)
      && CertOf(r.value.certPem).Some?
      && var c := CertOf(r.value.certPem).value;
      && c.template == r.value.template
      && IsCaCertificate(c) && SelfSigned(c)
      && c.template.keyUsage == {CertSign}
      && c.template.extKeyUsage == [] && c.template.ipAddresses == []
      && c.template.serialNumber < SerialLimit
      && TenYearWindow(c.template, d)
  {
    match d.key
    case Fail(e) => Fail(e)
    case Ok(rootKey) =>
      if d.marshalErr.Some? then Fail(d.marshalErr.value)
      else
        var rootTemplate := RootTemplate(d);
        if d.signErr.Some? then Fail(d.signErr.value)
        else
          var cert := Certificate(rootTemplate, rootTemplate, PublicOf(rootKey), rootKey);
          Ok(RootParts(EncodeKey(rootKey), EncodeCert(cert), rootKey, rootTemplate))
  }

  /** generateServerParts: a fresh key certified for `serverIP` by the root. */
  function GenerateServerParts(serverIP: string, root: RootParts, d: Draws): (r: Result<LeafParts>)
    ensures r.Fail? <==> FirstFailure(d).Some?
    ensures r.Fail? ==> Some(r.error) == FirstFailure(d)
    ensures r.Ok? ==>
      && KeyOf(r.value.keyPem) == Some(d.key.value)
      && CertOf(r.value.certPem).Some?
      && var c := CertOf(r.value.certPem).value;
      && c.issuer == root.template && c.signer == root.key
      && c.subjectKey == PublicOf(d.key.value)
      && IsServerLeafFor(c, serverIP)
      && c.template.keyUsage == {DigitalSignature, KeyEncipherment}
      && c.template.extKeyUsage == [ClientAuth, ServerAuth]
      && c.template.serialNumber < SerialLimit
      && TenYearWindow(c.template, d)
  {
    match d.key
    case Fail(e) => Fail(e)
    case Ok(serverKey) =>
      if d.marshalErr.Some? then Fail(d.marshalErr.value)
      else
        var serverTemplate := ServerTemplate(d, serverIP);
        if d.signErr.Some? then Fail(d.signErr.value)
        else
          var cert := Certificate(serverTemplate, root.template, PublicOf(serverKey), root.key);
          Ok(LeafParts(EncodeKey(serverKey), EncodeCert(cert)))
  }

  /** generateClientParts: a fresh key certified for client use by the root,
      always with serial number 4 (no serial is drawn). */
  function GenerateClientParts(root: RootParts, d: Draws): (r: Result<LeafParts>)
    ensures r.Fail? <==> FirstFailure(d).Some?
    ensures r.Fail? ==> Some(r.error) == FirstFailure(d)
    ensures r.Ok? ==>
      && KeyOf(r.value.keyPem) == Some(d.key.value)
      && CertOf(r.value.certPem).Some?
      && var c := CertOf(r.value.certPem).value;
      && c.issuer == root.template && c.signer == root.key
      && c.subjectKey == PublicOf(d.key.value)
      && IsClientLeaf(c)
      && c.template.serialNumber == 4
      && c.template.keyUsage == {DigitalSignature}
      && TenYearWindow(c.template, d)
  {
    match d.key
    case Fail(e) => Fail(e)
    case Ok(clientKey) =>
      if d.marshalErr.Some? then Fail(d.marshalErr.value)
      else
        var clientTemplate := ClientTemplate(d);
        if d.signErr.Some? then Fail(d.signErr.value)
        else
          var cert := Certificate(clientTemplate, root.template, PublicOf(clientKey), root.key);
          Ok(LeafParts(EncodeKey(clientKey), EncodeCert(cert)))
  }

  /** What CreatePEMs(serverIP) returns: root, then server, then client; the
      first failure ends it with no container. The root KEY goes in ServerCAPEM
      and the root CERTIFICATE in ClientCAPEM, as the source assigns them. */
  function IssueBundle(serverIP: string, root: Draws, server: Draws, client: Draws): Result<PemContainer> {
    match GenerateRootParts(root)
    case Fail(e) => Fail(e)
    case Ok(rp) =>
      match GenerateServerParts(serverIP, rp, server)
      case Fail(e) => Fail(e)
      case Ok(sp) =>
        match GenerateClientParts(rp, client)
        case Fail(e) => Fail(e)
        case Ok(cp) =>
          Ok(PemContainer(
            ServerCAPEM := rp.keyPem, ClientCAPEM := rp.certPem,
            ServerKeyPEM := sp.keyPem, ServerCertPEM := sp.certPem,
            ClientKeyPEM := cp.keyPem, ClientCertPEM := cp.certPem))
  }

  /** TLSCertService: remembers the IP of the last bundle it issued. */
  class TLSCertService {
    var serverIP: string

    constructor ()
      ensures serverIP == ""
    {
      serverIP := "";
    }

    method CreatePEMs(ip: string, root: Draws, server: Draws, client: Draws) returns (r: Result<PemContainer>)
      modifies this
      ensures serverIP == ip
      ensures r == IssueBundle(ip, root, server, client)
    {
      serverIP := ip;
      var rootParts := GenerateRootParts(root);
      if rootParts.Fail? {
        return Fail(rootParts.error);
      }
      var serverParts := GenerateServerParts(serverIP, rootParts.value, server);
      if serverParts.Fail? {
        return Fail(serverParts.error);
      }
      var clientParts := GenerateClientParts(rootParts.value, client);
      if clientParts.Fail? {
        return Fail(clientParts.error);
      }
      r := Ok(PemContainer(
        ServerCAPEM := rootParts.value.keyPem, ClientCAPEM := rootParts.value.certPem,
        ServerKeyPEM := serverParts.value.keyPem, ServerCertPEM := serverParts.value.certPem,
        ClientKeyPEM := clientParts.value.keyPem, ClientCertPEM := clientParts.value.certPem));
    }
  }

  // ---------------------------------------------------------------------------
  // Properties of an issued bundle.

  /** A bundle comes back exactly when no generation step fails, and a failure
      is the root's first, else the server's, else the client's. */
  lemma IssueBundleFailure(serverIP: string, root: Draws, server: Draws, client: Draws)
    ensures IssueBundle(serverIP, root, server, client).Ok? <==>
      FirstFailure(root).None? && FirstFailure(server).None? && FirstFailure(client).None?
    ensures FirstFailure(root).Some? ==>
      IssueBundle(serverIP, root, server, client) == Fail(FirstFailure(root).value)
    ensures FirstFailure(root).None? && FirstFailure(server).Some? ==>
      IssueBundle(serverIP, root, server, client) == Fail(FirstFailure(server).value)
    ensures FirstFailure(root).None? && FirstFailure(server).None? && FirstFailure(client).Some? ==>
      IssueBundle(serverIP, root, server, client) == Fail(FirstFailure(client).value)
  {
  }

  /** An issued bundle is a working mutual-TLS chain for `serverIP`: the root is
      a self-signed CA, both leaves verify under it, the server leaf names
      exactly `serverIP`, and the client leaf is for client authentication.
      ServerCAPEM holds the root's private key and ClientCAPEM its certificate. */
  lemma IssuedBundleChains(serverIP: string, root: Draws, server: Draws, client: Draws)
    requires IssueBundle(serverIP, root, server, client).Ok?
    ensures var b := IssueBundle(serverIP, root, server, client).value;
      && CertOf(b.ClientCAPEM).Some? && CertOf(b.ServerCertPEM).Some? && CertOf(b.ClientCertPEM).Some?
      && var ca := CertOf(b.ClientCAPEM).value;
      && var srv := CertOf(b.ServerCertPEM).value;
      && var cli := CertOf(b.ClientCertPEM).value;
      && IsCaCertificate(ca) && SelfSigned(ca)
      && IssuedBy(srv, ca) && IsServerLeafFor(srv, serverIP)
      && IssuedBy(cli, ca) && IsClientLeaf(cli)
      && KeyOf(b.ServerCAPEM) == Some(ca.signer)
      && CertOf(b.ServerCAPEM).None?
      && PublicOf(KeyOf(b.ServerKeyPEM).value) == srv.subjectKey
      && PublicOf(KeyOf(b.ClientKeyPEM).value) == cli.subjectKey
  {
    var rp := GenerateRootParts(root).value;
    var sp := GenerateServerParts(serverIP, rp, server).value;
    var cp := GenerateClientParts(rp, client).value;
  }

  /** Every certificate of a bundle expires ten years after its second clock
      read; with a clock that does not run backwards the window is at least ten
      years (87600 hours) long. */
  lemma BundleValidity(serverIP: string, root: Draws, server: Draws, client: Draws)
    requires IssueBundle(serverIP, root, server, client).Ok?
    ensures TenYears == 87600 * Hour
    ensures var b := IssueBundle(serverIP, root, server, client).value;
      && TenYearWindow(CertOf(b.ClientCAPEM).value.template, root)
      && TenYearWindow(CertOf(b.ServerCertPEM).value.template, server)
      && TenYearWindow(CertOf(b.ClientCertPEM).value.template, client)
      && (root.notBeforeNow <= root.notAfterNow ==>
            CertOf(b.ClientCAPEM).value.template.notAfter - CertOf(b.ClientCAPEM).value.template.notBefore >= TenYears)
  {
    var rp := GenerateRootParts(root).value;
    var sp := GenerateServerParts(serverIP, rp, server).value;
    var cp := GenerateClientParts(rp, client).value;
  }

  /** Serial numbers: root and server serials are random below 2^128 and so fit
      the 20-octet limit of section 4.1.2.2 of RFC 5280; the client serial is 4. */
  lemma BundleSerials(serverIP: string, root: Draws, server: Draws, client: Draws)
    requires IssueBundle(serverIP, root, server, client).Ok?
    ensures var b := IssueBundle(serverIP, root, server, client).value;
      && CertOf(b.ClientCAPEM).value.template.serialNumber == root.serial
      && CertOf(b.ServerCertPEM).value.template.serialNumber == server.serial
      && root.serial < SerialLimit && server.serial < SerialLimit
      && SerialLimit <= 0x1_0000_0000_0000_0000_0000_0000_0000_0000_0000_0000  // 2^160
      && CertOf(b.ClientCertPEM).value.template.serialNumber == 4
  {
    var rp := GenerateRootParts(root).value;
    var sp := GenerateServerParts(serverIP, rp, server).value;
    var cp := GenerateClientParts(rp, client).value;
  }
}
