/** The older registry revision (app/connections/consulProvider.go): the
    worker's id, address and port are fields set by Register, each renewal
    tick stores the agent's answer in ttlError, and onFailedTTL reads it from
    there. Consul answers are parameters. */
module Connections {
  import opened Errors
  import opened Strings
  import opened ConsulAgent

  const WorkerServiceName := "windlass-worker"
  const MissingTTLSuffix := "does not have associated TTL)"

  class ConsulProvider {
    var id: string
    var address: string
    var port: int
    const ttl: int
    const refreshTTL: int
    /** deregisterCritical: never assigned, so Go's zero duration. */
    const deregisterCritical: int
    const secretGetRetry: int
    const consulPath: string
    /** The agent's answer to the latest renewal. */
    var ttlError: Option<Error>
    /** viper's windlass.secret. */
    var secret: string
    var services: map<string, Service>
    var checks: map<string, CheckStatus>
    var workerTicker: Option<int>
    ghost var slept: int

    /** newConsulProvider. */
    constructor (consulPath: string, secret: string, services: map<string, Service>)
      ensures ttl == DefaultTTL && refreshTTL == RefreshTTL && deregisterCritical == 0
      ensures secretGetRetry == SecretGetRetry && this.consulPath == consulPath
      ensures id == "" && address == "" && port == 0 && ttlError == None
      ensures this.secret == secret && this.services == services && checks == map[] && workerTicker == None
      ensures slept == 0
    {
      id := "";
      address := "";
      port := 0;
      ttl := DefaultTTL;
      refreshTTL := RefreshTTL;
      deregisterCritical := 0;
      secretGetRetry := SecretGetRetry;
      this.consulPath := consulPath;
      ttlError := None;
      this.secret := secret;
      this.services := services;
      checks := map[];
      workerTicker := None;
      slept := 0;
    }

    function WorkerService(): Service
      reads this
    {
      Service(id, WorkerServiceName, [], address, port, ttl, Some(deregisterCritical))
    }

    /** registerWorker; `regErr` is the agent's answer. */
    method RegisterWorker(regErr: Option<Error>) returns (err: Option<Error>)
      modifies this
      ensures err == regErr
      ensures services == if regErr.None? then old(services)[id := WorkerService()] else old(services)
      ensures id == old(id) && address == old(address) && port == old(port) && ttlError == old(ttlError)
      ensures secret == old(secret) && checks == old(checks) && workerTicker == old(workerTicker) && slept == old(slept)
    {
      if regErr.None? {
        services := services[id := WorkerService()];
      }
      err := regErr;
    }

    /** Register: set id, port and address from the configuration, register
        the worker (its error returned as is), then start the worker ticker;
        registerProjects and updateProjectTTL have empty bodies here. */
    method Register(httpAddress: string, httpPort: int, regErr: Option<Error>) returns (err: Option<Error>)
      modifies this
      ensures id == WorkerId(httpAddress, httpPort) && address == httpAddress && port == httpPort
      ensures err == regErr
      ensures services == if regErr.None? then old(services)[id := WorkerService()] else old(services)
      ensures workerTicker == if regErr.None? then Some(WorkerRenewal(ttl)) else old(workerTicker)
      ensures ttlError == old(ttlError) && secret == old(secret) && checks == old(checks) && slept == old(slept)
    {
      id := WorkerId(httpAddress, httpPort);
      port := httpPort;
      address := httpAddress;
      err := RegisterWorker(regErr);
      if err.Some? {
        return;
      }
      workerTicker := Some(WorkerRenewal(ttl));
    }

    /** onFailedTTL: re-register when the stored error ends with the
        missing-TTL text, else nil. Reading a nil ttlError would panic. */
    method OnFailedTTL(regErr: Option<Error>) returns (err: Option<Error>)
      requires ttlError.Some?
      modifies this
      ensures id == old(id) && address == old(address) && port == old(port) && ttlError == old(ttlError)
      ensures HasSuffix(Text(old(ttlError).value), MissingTTLSuffix) ==>
        err == regErr && services == (if regErr.None? then old(services)[id := WorkerService()] else old(services))
      ensures !HasSuffix(Text(old(ttlError).value), MissingTTLSuffix) ==> err == None && services == old(services)
      ensures secret == old(secret) && checks == old(checks) && workerTicker == old(workerTicker) && slept == old(slept)
    {
      if HasSuffix(Text(ttlError.value), MissingTTLSuffix) {
        err := RegisterWorker(regErr);
      } else {
        err := None;
      }
    }

    /** One worker tick: report passing iff the secret is set, store the
        answer in ttlError, and on failure run onFailedTTL, which therefore
        reads this tick's error. */
    method WorkerTick(updateErr: Option<Error>, regErr: Option<Error>)
      modifies this
      ensures ttlError == updateErr
      ensures updateErr.None? ==>
        && checks == old(checks)[CheckId(id) := CheckStatus("", if secret == "" then Critical else Passing)]
        && services == old(services)
      ensures updateErr.Some? ==>
        && checks == old(checks)
        && services == (if HasSuffix(Text(updateErr.value), MissingTTLSuffix) && regErr.None?
                        then old(services)[id := WorkerService()] else old(services))
      ensures id == old(id) && address == old(address) && port == old(port)
      ensures secret == old(secret) && workerTicker == old(workerTicker) && slept == old(slept)
    {
      var health := if secret == "" then Critical else Passing;
      ttlError := updateErr;
      if updateErr.None? {
        checks := checks[CheckId(id) := CheckStatus("", health)];
      } else {
        var _ := OnFailedTTL(regErr);
      }
    }

    /** GetAndSetSharedSecret: the same bounded retry as the current
        revision. */
    method GetAndSetSharedSecret(reply: nat -> KvReply) returns (err: Option<Error>)
      modifies this
      ensures var b := SecretRetry(SecretPath(consulPath), reply, secretGetRetry, 0, None);
        && err == b.err
        && secret == (if b.secret.Some? then b.secret.value else old(secret))
        && slept == old(slept) + b.sleeps * SecretRetrySleep
      ensures id == old(id) && address == old(address) && port == old(port) && ttlError == old(ttlError)
      ensures services == old(services) && checks == old(checks) && workerTicker == old(workerTicker)
    {
      var b := RetrySecret(SecretPath(consulPath), reply, secretGetRetry);
      if b.secret.Some? {
        secret := b.secret.value;
      }
      slept := slept + b.sleeps * SecretRetrySleep;
      err := b.err;
    }
  }
}
