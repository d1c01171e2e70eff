/** The provisioning pipeline (app/services/containerHostService.go):
    ContainerHostService.CreateHost runs nine steps against the container
    host driver, the certificate issuer, the certificate store and the
    registry, stops at the first failure with that error unchanged, undoes
    nothing, and ignores the registry's answer. The driver is abstract: its
    answers are parameters, and the calls it receives are recorded. */
module HostService {
  import opened Errors
  import opened TlsCertService
  import VaultTlsStorage
  import Providers
  import LxdContainerHost
  import ConsulAgent

  const PingHealthyMessage := "Remote Docker daemon reachable"
  const StepCount := 9

  /** One call CreateHost makes, with its arguments. */
  datatype Call =
    | CreateContainerHost(name: string)
    | StartContainerHost(name: string)
    | GetContainerHostIP(name: string)
    | CreatePEMs(ip: string)
    | PushAuthCerts(name: string, caPEM: Pem, serverKeyPEM: Pem, serverCertPEM: Pem)
    | RestartNGINX(name: string)
    | UseCerts(clientKeyPEM: Pem, clientCertPEM: Pem, caPEM: Pem)
    | StoreCerts(key: string, serverCA: Pem, clientCA: Pem, serverKey: Pem, serverCert: Pem,
                 clientKey: Pem, clientCert: Pem)
    | RegisterProject(name: string, ip: string)

  /** Where a call stands in the fixed order. */
  function Position(c: Call): nat {
    match c
    case CreateContainerHost(_) => 0
    case StartContainerHost(_) => 1
    case GetContainerHostIP(_) => 2
    case CreatePEMs(_) => 3
    case PushAuthCerts(_, _, _, _) => 4
    case RestartNGINX(_) => 5
    case UseCerts(_, _, _) => 6
    case StoreCerts(_, _, _, _, _, _, _) => 7
    case RegisterProject(_, _) => 8
  }

  /** The answers one CreateHost gets: from the driver (create, start, ip,
      push, restart), the issuer's draws, the store's write, and the
      registry's service registration and KV put. */
  datatype Env = Env(
    create: Option<Error>, start: Option<Error>, ip: Result<string>,
    rootDraws: Draws, serverDraws: Draws, clientDraws: Draws,
    push: Option<Error>, restart: Option<Error>, store: Option<Error>,
    register: Option<Error>, put: Option<Error>)

  /** The bundle the issuer returns for the IP the driver reported. */
  function Bundle(env: Env): Result<PemContainer>
    requires env.ip.Ok?
  {
    IssueBundle(env.ip.value, env.rootDraws, env.serverDraws, env.clientDraws)
  }

  /** The calls CreateHost makes and how it ends; `muHeld` says whether the
      registry's metadata lock is already held. */
  datatype Run = Run(calls: seq<Call>, result: Providers.Completion)

  function Pipeline(name: string, env: Env, muHeld: bool): Run {
    var p := Provisioning(name, env);
    if p.result != Providers.Returned(None) then p
    else
      var d := Delivery(name, env.ip.value, Bundle(env).value, env, muHeld);
      Run(p.calls + d.calls, d.result)
  }

  /** Steps one to four: create, start, discover the IP, issue the bundle;
      they end without error exactly when each of them succeeds. */
  function Provisioning(name: string, env: Env): (r: Run)
    ensures r.result == Providers.Returned(None) <==>
      env.create.None? && env.start.None? && env.ip.Ok? && Bundle(env).Ok?
  {
    var c0 := [CreateContainerHost(name)];
    var c1 := c0 + [StartContainerHost(name)];
    var c2 := c1 + [GetContainerHostIP(name)];
    if env.create.Some? then Run(c0, Providers.Returned(env.create))
    else if env.start.Some? then Run(c1, Providers.Returned(env.start))
    else if env.ip.Fail? then Run(c2, Providers.Returned(Some(env.ip.error)))
    else if Bundle(env).Fail? then Run(c2 + [CreatePEMs(env.ip.value)], Providers.Returned(Some(Bundle(env).error)))
    else Run(c2 + [CreatePEMs(env.ip.value)], Providers.Returned(None))
  }

  /** Steps five to nine, once the bundle for `ip` is issued: certificates to
      the host, nginx restart, the driver's own certificates, the store, the
      registry. */
  function Delivery(name: string, ip: string, b: PemContainer, env: Env, muHeld: bool): Run {
    var c4 := [PushAuthCerts(name, b.ClientCAPEM, b.ServerKeyPEM, b.ServerCertPEM)];
    if env.push.Some? then Run(c4, Providers.Returned(env.push))
    else
      var c5 := c4 + [RestartNGINX(name)];
      if env.restart.Some? then Run(c5, Providers.Returned(env.restart))
      else
        var c7 := c5 + [UseCerts(b.ClientKeyPEM, b.ClientCertPEM, b.ClientCAPEM),
                        StoreCerts(name, b.ServerCAPEM, b.ClientCAPEM, b.ServerKeyPEM, b.ServerCertPEM,
                                   b.ClientKeyPEM, b.ClientCertPEM)];
        if env.store.Some? then Run(c7, Providers.Returned(env.store))
        else
          Run(c7 + [RegisterProject(name, ip)],
              if muHeld && env.register.None? then Providers.Blocked else Providers.Returned(None))
  }

  /** The error each fallible step reports, in order; UseCerts cannot fail
      and the registration's answer is not consulted. */
  function StepErrors(env: Env): (es: seq<Option<Error>>)
    ensures |es| == 8
  {
    var pemsErr := if env.ip.Fail? || Bundle(env).Ok? then None else Some(Bundle(env).error);
    [env.create, env.start, if env.ip.Fail? then Some(env.ip.error) else None, pemsErr,
     env.push, env.restart, None, env.store]
  }

  /** The index of the first failing step, or 8 when all eight succeed. */
  function FirstFailing(env: Env): (k: nat)
    ensures k <= 8
    ensures k < 8 ==> StepErrors(env)[k].Some?
    ensures forall i :: 0 <= i < k ==> StepErrors(env)[i].None?
  {
    var es := StepErrors(env);
    if es[0].Some? then 0 else if es[1].Some? then 1 else if es[2].Some? then 2
    else if es[3].Some? then 3 else if es[4].Some? then 4 else if es[5].Some? then 5
    else if es[6].Some? then 6 else if es[7].Some? then 7 else 8
  }

  /** The calls are a prefix of the fixed nine-step order that ends at the
      first failing step; that step's error is returned unchanged. When no
      step fails all nine run and the result is nil (or the call hangs on the
      lock): the registry's answer never reaches the caller. */
  lemma PipelineShape(name: string, env: Env, muHeld: bool)
    ensures var run := Pipeline(name, env, muHeld);
      var k := FirstFailing(env);
      && |run.calls| == (if k < 8 then k + 1 else StepCount)
      && (forall i :: 0 <= i < |run.calls| ==> Position(run.calls[i]) == i)
      && (k < 8 ==> run.result == Providers.Returned(StepErrors(env)[k]))
      && (k == 8 ==> run.result == (if muHeld && env.register.None? then Providers.Blocked
                                    else Providers.Returned(None)))
  {
    ProvisioningShape(name, env);
    var p := Provisioning(name, env);
    if p.result == Providers.Returned(None) {
      DeliveryShape(name, env, muHeld);
      var d := Delivery(name, env.ip.value, Bundle(env).value, env, muHeld);
      assert Pipeline(name, env, muHeld).calls == p.calls + d.calls;
      forall i | 0 <= i < |p.calls| + |d.calls|
        ensures Position((p.calls + d.calls)[i]) == i
      {
        if i >= |p.calls| {
          assert (p.calls + d.calls)[i] == d.calls[i - 4];
        }
      }
    }
  }

  /** Steps one to four run in order up to the first failing one. */
  lemma ProvisioningShape(name: string, env: Env)
    ensures var p := Provisioning(name, env);
      var k := FirstFailing(env);
      && |p.calls| == (if k < 4 then k + 1 else 4)
      && (forall i :: 0 <= i < |p.calls| ==> Position(p.calls[i]) == i)
      && (k < 4 ==> p.result == Providers.Returned(StepErrors(env)[k]))
  {
  }

  /** Once the bundle is issued, steps five to nine run in order up to the
      first failing one. */
  lemma DeliveryShape(name: string, env: Env, muHeld: bool)
    requires env.create.None? && env.start.None? && env.ip.Ok? && Bundle(env).Ok?
    ensures var d := Delivery(name, env.ip.value, Bundle(env).value, env, muHeld);
      var k := FirstFailing(env);
      && 4 <= k
      && |d.calls| == (if k < 8 then k - 3 else 5)
      && (forall i :: 0 <= i < |d.calls| ==> Position(d.calls[i]) == i + 4)
      && (k < 8 ==> d.result == Providers.Returned(StepErrors(env)[k]))
      && (k == 8 ==> d.result == (if muHeld && env.register.None? then Providers.Blocked
                                  else Providers.Returned(None)))
  {
  }

  /** Whether the registry's metadata lock is held once CreateHost is done:
      it was held already, or all nine steps ran and the agent accepted the
      registration, so SaveProjectMeta took the lock and never released it. */
  function MuAfter(name: string, env: Env, muHeld: bool): bool {
    muHeld || (|Pipeline(name, env, muHeld).calls| == StepCount && env.register.None?)
  }

  /** Two requests in a row for which every step succeeds and the agent
      accepts the registration: the second waits forever on the lock the
      first left held, so its client never gets an answer. */
  lemma SecondCreateHostHangs(name1: string, env1: Env, name2: string, env2: Env, muHeld: bool)
    requires FirstFailing(env1) == 8 && env1.register.None?
    requires FirstFailing(env2) == 8 && env2.register.None?
    ensures MuAfter(name1, env1, muHeld)
    ensures Pipeline(name2, env2, MuAfter(name1, env1, muHeld)).result == Providers.Blocked
  {
    PipelineShape(name1, env1, muHeld);
    PipelineShape(name2, env2, true);
  }

  /** The IP the driver reports is the one certified and the one registered;
      the host gets the root certificate and the server pair, the driver
      switches to the client pair under the root certificate, and the store
      gets all six blocks under the container name. */
  lemma PipelineRouting(name: string, env: Env, muHeld: bool)
    ensures var run := Pipeline(name, env, muHeld);
      && (|run.calls| > 3 ==> env.ip.Ok? && run.calls[3] == CreatePEMs(env.ip.value))
      && (|run.calls| > 4 ==>
            Bundle(env).Ok? &&
            var b := Bundle(env).value;
            && run.calls[4] == PushAuthCerts(name, b.ClientCAPEM, b.ServerKeyPEM, b.ServerCertPEM)
            && (|run.calls| > 6 ==> run.calls[6] == UseCerts(b.ClientKeyPEM, b.ClientCertPEM, b.ClientCAPEM))
            && (|run.calls| > 7 ==> run.calls[7] == StoreCerts(name, b.ServerCAPEM, b.ClientCAPEM, b.ServerKeyPEM,
                                                               b.ServerCertPEM, b.ClientKeyPEM, b.ClientCertPEM)))
      && (|run.calls| > 8 ==> run.calls[8] == RegisterProject(name, env.ip.value))
  {
  }

  /** The check CreateHost registers: ping the daemon, report the ping's
      error text and unhealthy, or the fixed message and healthy. */
  function PingCheck(ping: Option<Error>): (r: (string, bool))
    ensures r.1 <==> ping.None?
    ensures ping.None? ==> r.0 == PingHealthyMessage
    ensures ping.Some? ==> r.0 == Text(ping.value)
  {
    if ping.Some? then (Text(ping.value), false) else (PingHealthyMessage, true)
  }

  /** The check as a closure over the driver's ping answer; it ignores the IP
      it is handed. */
  function PingClosure(ping: Option<Error>): string -> (string, bool) {
    (ip: string) => PingCheck(ping)
  }

  /** Against the LXD driver, whose Ping never fails, every project tick
      reports passing with the fixed message. */
  lemma LxdProjectsAlwaysPass(ip: string)
    ensures PingClosure(LxdContainerHost.Ping())(ip) == (PingHealthyMessage, true)
    ensures Providers.ProjectHealth(PingClosure(LxdContainerHost.Ping())(ip).1) == ConsulAgent.Passing
  {
  }

  /** The driver as CreateHost sees it: the certificates it uses to reach the
      host's daemon (set by UseCerts) and the answer it gives to Ping. */
  class Driver {
    var clientCerts: Option<(Pem, Pem, Pem)>
    const ping: Option<Error>

    constructor (ping: Option<Error>)
      ensures clientCerts == None && this.ping == ping
    {
      clientCerts := None;
      this.ping := ping;
    }

    /** UseCerts: switch to a client key, certificate and CA. */
    method UseCerts(clientKeyPEM: Pem, clientCertPEM: Pem, caPEM: Pem)
      modifies this
      ensures clientCerts == Some((clientKeyPEM, clientCertPEM, caPEM))
    {
      clientCerts := Some((clientKeyPEM, clientCertPEM, caPEM));
    }
  }

  class ContainerHostService {
    const repo: Driver
    const consul: Providers.ConsulProvider
    const tlsService: TLSCertService
    const tlsStorageRepo: VaultTlsStorage.VaultTlsStorageRepo
    /** Every call CreateHost has made, in order. */
    var calls: seq<Call>

    constructor (repo: Driver, consul: Providers.ConsulProvider, tlsService: TLSCertService,
                 tlsStorageRepo: VaultTlsStorage.VaultTlsStorageRepo)
      ensures this.repo == repo && this.consul == consul && this.tlsService == tlsService
      ensures this.tlsStorageRepo == tlsStorageRepo && calls == []
    {
      this.repo := repo;
      this.consul := consul;
      this.tlsService := tlsService;
      this.tlsStorageRepo := tlsStorageRepo;
      calls := [];
    }

    /** CreateHost for container `name`, the collaborators answering as `env`. */
    method CreateHost(name: string, env: Env) returns (c: Providers.Completion)
      modifies this, repo, consul, tlsService, tlsStorageRepo
      ensures var run := Pipeline(name, env, old(consul.mu));
        calls == old(calls) + run.calls && c == run.result
      ensures env.create.None? && env.start.None? && env.ip.Ok? ==> tlsService.serverIP == env.ip.value
      ensures !(env.create.None? && env.start.None? && env.ip.Ok?) ==> tlsService.serverIP == old(tlsService.serverIP)
      ensures !(env.create.None? && env.start.None? && env.ip.Ok? && Bundle(env).Ok?) ==>
        && repo.clientCerts == old(repo.clientCerts)
        && tlsStorageRepo.secrets == old(tlsStorageRepo.secrets)
        && consul.services == old(consul.services) && consul.kv == old(consul.kv)
        && consul.mu == old(consul.mu) && consul.projectIDtoCheck == old(consul.projectIDtoCheck)
      ensures env.create.None? && env.start.None? && env.ip.Ok? && Bundle(env).Ok? ==>
        DeliveryEffects(name, env.ip.value, Bundle(env).value, env, old(consul.mu),
                        old(repo.clientCerts), old(tlsStorageRepo.secrets), old(consul.services), old(consul.kv),
                        old(consul.projectIDtoCheck))
      ensures consul.mu == MuAfter(name, env, old(consul.mu))
      ensures consul.secret == old(consul.secret) && consul.checks == old(consul.checks)
      ensures consul.workerTicker == old(consul.workerTicker) && consul.slept == old(consul.slept)
    {
      var p, pems := Provision(name, env);
      if p != Providers.Returned(None) {
        return p;
      }
      ghost var before := calls;
      c := Deliver(name, env.ip.value, pems.value, env);
      assert calls == before + Delivery(name, env.ip.value, pems.value, env, old(consul.mu)).calls;
    }

    /** Steps one to four of CreateHost; on success `pems` holds the issued
        bundle. */
    method Provision(name: string, env: Env) returns (c: Providers.Completion, pems: Option<PemContainer>)
      modifies this, tlsService
      ensures calls == old(calls) + Provisioning(name, env).calls && c == Provisioning(name, env).result
      ensures c == Providers.Returned(None) ==> pems == Some(Bundle(env).value)
      ensures env.create.None? && env.start.None? && env.ip.Ok? ==> tlsService.serverIP == env.ip.value
      ensures !(env.create.None? && env.start.None? && env.ip.Ok?) ==> tlsService.serverIP == old(tlsService.serverIP)
    {
      pems := None;
      calls := calls + [CreateContainerHost(name)];
      if env.create.Some? {
        return Providers.Returned(env.create), pems;
      }
      calls := calls + [StartContainerHost(name)];
      if env.start.Some? {
        return Providers.Returned(env.start), pems;
      }
      calls := calls + [GetContainerHostIP(name)];
      if env.ip.Fail? {
        return Providers.Returned(Some(env.ip.error)), pems;
      }
      var ip := env.ip.value;
      calls := calls + [CreatePEMs(ip)];
      var issued := tlsService.CreatePEMs(ip, env.rootDraws, env.serverDraws, env.clientDraws);
      if issued.Fail? {
        return Providers.Returned(Some(issued.error)), pems;
      }
      return Providers.Returned(None), Some(issued.value);
    }

    /** What steps five to nine leave behind: the driver's certificates, the
        stored record and the registry's state, each changed only by the steps
        that ran and succeeded; the lock is held afterwards iff it was before
        or the registration was reached and accepted. */
    ghost predicate DeliveryEffects(name: string, ip: string, b: PemContainer, env: Env, muHeld: bool,
                                    certs0: Option<(Pem, Pem, Pem)>, secrets0: map<string, VaultTlsStorage.Record>,
                                    services0: map<string, ConsulAgent.Service>,
                                    kv0: map<string, Providers.KvEntry>,
                                    checks0: map<string, Providers.ProjectCheck>)
      reads this, repo, consul, tlsStorageRepo
    {
      var ran := |Delivery(name, ip, b, env, muHeld).calls|;
      && repo.clientCerts == (if ran > 2 then Some((b.ClientKeyPEM, b.ClientCertPEM, b.ClientCAPEM)) else certs0)
      && tlsStorageRepo.secrets == (if ran > 3 && env.store.None?
           then secrets0[tlsStorageRepo.prefix + name :=
                         VaultTlsStorage.CertRecord(b.ServerCAPEM, b.ClientCAPEM, b.ServerKeyPEM, b.ServerCertPEM,
                                                    b.ClientKeyPEM, b.ClientCertPEM)]
           else secrets0)
      && consul.mu == (muHeld || (ran == 5 && env.register.None?))
      && (ran < 5 ==> consul.services == services0 && consul.kv == kv0 && consul.projectIDtoCheck == checks0)
      && (ran == 5 && env.register.None? ==> consul.services == services0[name := consul.ProjectService(name, ip)])
      && (ran == 5 && (env.register.Some? || muHeld || env.put.Some?) ==>
            consul.kv == kv0 && consul.projectIDtoCheck == checks0)
      && (ran == 5 && env.register.None? && !muHeld && env.put.None? ==>
            && consul.kv == kv0[Providers.MetaKey(consul.hostname, name) := Providers.MetaJson(Providers.ProjectMeta(name, ip))]
            && consul.projectIDtoCheck == checks0[name := Providers.ProjectCheck(Providers.CheckFn(PingClosure(repo.ping)),
                                                                                 ConsulAgent.ProjectRenewal(consul.ttl))])
    }

    /** Steps five to nine of CreateHost. */
    method Deliver(name: string, ip: string, b: PemContainer, env: Env) returns (c: Providers.Completion)
      modifies this, repo, consul, tlsStorageRepo
      ensures var run := Delivery(name, ip, b, env, old(consul.mu));
        calls == old(calls) + run.calls && c == run.result
      ensures DeliveryEffects(name, ip, b, env, old(consul.mu), old(repo.clientCerts), old(tlsStorageRepo.secrets),
                              old(consul.services), old(consul.kv), old(consul.projectIDtoCheck))
      ensures consul.secret == old(consul.secret) && consul.checks == old(consul.checks)
      ensures consul.workerTicker == old(consul.workerTicker) && consul.slept == old(consul.slept)
    {
      calls := calls + [PushAuthCerts(name, b.ClientCAPEM, b.ServerKeyPEM, b.ServerCertPEM)];
      if env.push.Some? {
        return Providers.Returned(env.push);
      }
      calls := calls + [RestartNGINX(name)];
      if env.restart.Some? {
        return Providers.Returned(env.restart);
      }
      calls := calls + [UseCerts(b.ClientKeyPEM, b.ClientCertPEM, b.ClientCAPEM)];
      repo.UseCerts(b.ClientKeyPEM, b.ClientCertPEM, b.ClientCAPEM);
      calls := calls + [StoreCerts(name, b.ServerCAPEM, b.ClientCAPEM, b.ServerKeyPEM, b.ServerCertPEM,
                                   b.ClientKeyPEM, b.ClientCertPEM)];
      var storeErr := tlsStorageRepo.PushAuthCerts(name, b.ServerCAPEM, b.ClientCAPEM, b.ServerKeyPEM,
                                                   b.ServerCertPEM, b.ClientKeyPEM, b.ClientCertPEM, env.store);
      if storeErr.Some? {
        return Providers.Returned(storeErr);
      }
      calls := calls + [RegisterProject(name, ip)];
      var registered := consul.RegisterProject(name, ip, Providers.CheckFn(PingClosure(repo.ping)),
                                               env.register, env.put);
      if registered == Providers.Blocked {
        return Providers.Blocked;
      }
      return Providers.Returned(None);
    }
  }
}
