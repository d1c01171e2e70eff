/** Certificate storage in Vault (app/repositories/tlsStorage/vaultTlsStorageRepo.go),
    against Vault's logical store seen as a map from path to record. Vault's
    own failures arrive as parameters; a path with no record reads as the
    error "nothing found in Vault at given prefix". */
module VaultTlsStorage {
  import opened Errors
  import opened TlsCertService
  import Strings

  /** A Vault record: field name to value. */
  type Record = map<string, Pem>

  /** tlsstorage.PEMContainer: what GetAuthCerts hands back. It has no CA field. */
  datatype StoredCerts = StoredCerts(ServerKeyPEM: Pem, ServerCertPEM: Pem, ClientKeyPEM: Pem, ClientCertPEM: Pem)

  const CertFields: set<string> := {"server_ca", "client_ca", "server_key", "server_cert", "client_key", "client_cert"}

  const VaultNotFound := "nothing found in Vault at given prefix"
  const ReadFailurePrefix := "failed getting TLS data from Vault: "

  /** The record PushAuthCerts writes. */
  function CertRecord(serverCA: Pem, clientCA: Pem, serverKey: Pem, serverCert: Pem, clientKey: Pem, clientCert: Pem): (r: Record)
    ensures r.Keys == CertFields
    ensures r["server_ca"] == serverCA && r["client_ca"] == clientCA
    ensures r["server_key"] == serverKey && r["server_cert"] == serverCert
    ensures r["client_key"] == clientKey && r["client_cert"] == clientCert
  {
    map["server_ca" := serverCA, "client_ca" := clientCA, "server_key" := serverKey,
        "server_cert" := serverCert, "client_key" := clientKey, "client_cert" := clientCert]
  }

  /** The four fields GetAuthCerts converts; a record lacking one makes the
      source's type assertion panic. */
  predicate HasLeafFields(r: Record) {
    "server_cert" in r && "server_key" in r && "client_cert" in r && "client_key" in r
  }

  /** GetAuthCerts against the store `secrets` under Vault path prefix `prefix`.
      `readErr` is the error Vault's read itself returns, if any. */
  function ReadCerts(secrets: map<string, Record>, prefix: string, key: string, readErr: Option<Error>): (r: Result<StoredCerts>)
    requires readErr.None? && prefix + key in secrets ==> HasLeafFields(secrets[prefix + key])
    ensures r.Ok? <==> readErr.None? && prefix + key in secrets
    ensures r.Fail? ==> r.error.Message? && Strings.HasPrefix(Text(r.error), ReadFailurePrefix)
    ensures readErr.Some? ==> r == Fail(Errorf(ReadFailurePrefix, readErr.value))
    ensures r.Ok? ==>
      var rec := secrets[prefix + key];
      r.value == StoredCerts(rec["server_key"], rec["server_cert"], rec["client_key"], rec["client_cert"])
  {
    var vaultResult: Result<Record> :=
      if readErr.Some? then Fail(readErr.value)
      else if prefix + key !in secrets then Fail(Message(VaultNotFound))
      else Ok(secrets[prefix + key]);
    match vaultResult
    case Fail(e) =>
      Strings.PrefixOfConcat(ReadFailurePrefix, Text(e));
      Fail(Errorf(ReadFailurePrefix, e))
    case Ok(data) =>
      Ok(StoredCerts(
        ServerCertPEM := data["server_cert"], ServerKeyPEM := data["server_key"],
        ClientCertPEM := data["client_cert"], ClientKeyPEM := data["client_key"]))
  }

  class VaultTlsStorageRepo {
    /** viper's "vault.path", prepended to every key. */
    const prefix: string
    /** Vault's logical store. */
    var secrets: map<string, Record>

    constructor (prefix: string, secrets: map<string, Record>)
      ensures this.prefix == prefix && this.secrets == secrets
    {
      this.prefix := prefix;
      this.secrets := secrets;
    }

    /** PushAuthCerts: one Vault write of all six blocks under prefix + key.
        `writeErr` is what Vault's write returns; the store changes only when
        it succeeds. */
    method PushAuthCerts(key: string, serverCA: Pem, clientCA: Pem, serverKey: Pem, serverCert: Pem,
                         clientKey: Pem, clientCert: Pem, writeErr: Option<Error>) returns (err: Option<Error>)
      modifies this
      ensures err == writeErr
      ensures writeErr.None? ==>
        secrets == old(secrets)[prefix + key := CertRecord(serverCA, clientCA, serverKey, serverCert, clientKey, clientCert)]
      ensures writeErr.Some? ==> secrets == old(secrets)
    {
      if writeErr.None? {
        secrets := secrets[prefix + key := CertRecord(serverCA, clientCA, serverKey, serverCert, clientKey, clientCert)];
      }
      err := writeErr;
    }

    /** GetAuthCerts reads the same path PushAuthCerts writes: it succeeds
        iff Vault answers and the path holds a record, and then returns that
        record's four leaf blocks. */
    function GetAuthCerts(key: string, readErr: Option<Error>): (r: Result<StoredCerts>)
      reads this
      requires readErr.None? && prefix + key in secrets ==> HasLeafFields(secrets[prefix + key])
      ensures r.Ok? <==> readErr.None? && prefix + key in secrets
      ensures readErr.Some? ==> r == Fail(Errorf(ReadFailurePrefix, readErr.value))
      ensures readErr.None? && prefix + key !in secrets ==> r == Fail(Message(ReadFailurePrefix + VaultNotFound))
      ensures r.Ok? ==>
        var rec := secrets[prefix + key];
        r.value == StoredCerts(rec["server_key"], rec["server_cert"], rec["client_key"], rec["client_cert"])
    {
      ReadCerts(secrets, prefix, key, readErr)
    }
  }

  /** Round trip: what PushAuthCerts stores under a key, GetAuthCerts reads
      back under that key, leaf blocks only, whatever else the store held. */
  lemma PushThenGet(secrets: map<string, Record>, prefix: string, key: string,
                    serverCA: Pem, clientCA: Pem, serverKey: Pem, serverCert: Pem, clientKey: Pem, clientCert: Pem)
    ensures var after := secrets[prefix + key := CertRecord(serverCA, clientCA, serverKey, serverCert, clientKey, clientCert)];
      ReadCerts(after, prefix, key, None) == Ok(StoredCerts(serverKey, serverCert, clientKey, clientCert))
  {
  }

  /** The CA blocks are stored but never read back: two stores that differ only
      in a record's CA fields give the same answer. */
  lemma CaFieldsNotRead(secrets: map<string, Record>, prefix: string, key: string, readErr: Option<Error>,
                        ca1: Pem, ca2: Pem, ca3: Pem, ca4: Pem)
    requires readErr.None? && prefix + key in secrets ==> HasLeafFields(secrets[prefix + key])
    ensures var rec := if prefix + key in secrets then secrets[prefix + key] else map[];
      var s1 := secrets[prefix + key := rec["server_ca" := ca1]["client_ca" := ca2]];
      var s2 := secrets[prefix + key := rec["server_ca" := ca3]["client_ca" := ca4]];
      readErr.None? && prefix + key in secrets ==> ReadCerts(s1, prefix, key, readErr) == ReadCerts(s2, prefix, key, readErr)
  {
  }

  /** A missing entry is an error, never an empty container. */
  lemma MissingIsError(secrets: map<string, Record>, prefix: string, key: string)
    requires prefix + key !in secrets
    ensures ReadCerts(secrets, prefix, key, None) == Fail(Message(ReadFailurePrefix + VaultNotFound))
  {
  }
}
