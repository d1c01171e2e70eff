/** The worker's health registry in Consul
    (app/repositories/providers/consulProvider.go). The Consul agent, its KV
    store and the cached shared secret are fields; every Consul call's answer
    is a parameter. A goroutine's ticker loop is one method call per tick. */
module Providers {
  import opened Errors
  import opened Strings
  import opened ConsulAgent

  const WorkerServiceName := "windlass_worker"
  const ProjectServiceName := "windlass_worker_projects"
  const ProjectPort := 443
  const MissingTTLText := "does not have associated TTL"
  const WorkerFailurePrefix := "failed to register worker: "
  const ProjectsFailurePrefix := "failed to register one or more associated projects: "

  /** A project's health check closure; NilCheck is Go's nil func value, which
      the check map yields for an id it does not hold. */
  datatype Check = NilCheck | CheckFn(run: string -> (string, bool))

  /** projectCheck: the check and the period of the ticker that runs it. */
  datatype ProjectCheck = ProjectCheck(check: Check, period: int)

  /** projectMeta, stored as the JSON object {"id": ..., "ip_address": ...}. */
  datatype ProjectMeta = ProjectMeta(id: string, ip: string)

  /** A KV value: a project's metadata, or raw bytes (the shared secret). */
  datatype KvEntry = MetaJson(meta: ProjectMeta) | Bytes(data: string)

  /** How a call ends: it returns an error or nil, or it waits forever on a
      mutex that is never released. */
  datatype Completion = Returned(err: Option<Error>) | Blocked

  /** What registerProjects learns about a stored project before registering
      it: its metadata does not decode, its container's IP cannot be found,
      Vault cannot be reached or has no certificates for it, or the IP. */
  datatype Prep = BadMeta(err: Error) | NoIP(err: Error) | VaultFailed(err: Error) | Ready(ip: string)

  /** One KV pair under kvPath as registerProjects walks it: its key, what the
      steps before registration answer, the ping check over the project's own
      container host, and the agent's and the KV store's answers to the
      RegisterProject call it leads to. */
  datatype StoredProject = StoredProject(key: string, prep: Prep, check: Check, regErr: Option<Error>, putErr: Option<Error>)

  /** The part of the provider's state that RegisterProject changes. */
  datatype Registry = Registry(services: map<string, Service>, kv: map<string, KvEntry>,
                               projectChecks: map<string, ProjectCheck>, mu: bool)

  /** kvPath(): the KV folder of this worker's projects. */
  function KvPath(hostname: string): string {
    "windlass_worker@" + hostname
  }

  /** The key SaveProjectMeta writes a project's metadata under. */
  function MetaKey(hostname: string, id: string): string {
    KvPath(hostname) + "/" + id
  }

  /** The registration RegisterProject sends: tagged with the worker's KV
      folder, port 443, TTL five worker TTLs. */
  function ProjectServiceFor(hostname: string, ttl: int, name: string, ip: string): Service {
    Service(name, ProjectServiceName, ["Worker:" + KvPath(hostname)], ip, ProjectPort, ProjectTTL(ttl), None)
  }

  /** projectNameFromKVPath: strip the folder prefix, then one trailing "/". */
  function ProjectNameFromKVPath(hostname: string, path: string): string {
    TrimSuffix(TrimPrefix(path, KvPath(hostname) + "/"), "/")
  }

  /** projectNameFromKVPath inverts the key SaveProjectMeta writes exactly for
      the ids that do not end in "/". */
  lemma ProjectNameInvertsMetaKey(hostname: string, id: string)
    ensures ProjectNameFromKVPath(hostname, MetaKey(hostname, id)) == id <==> !HasSuffix(id, "/")
  {
    var folder := KvPath(hostname) + "/";
    assert MetaKey(hostname, id) == folder + id;
    PrefixOfConcat(folder, id);
    if HasSuffix(id, "/") {
      var r := TrimSuffix(id, "/");
      assert id == r + "/";
      assert |r| < |id|;
    }
  }

  /** Worker health per tick: passing iff the shared secret is set. */
  function WorkerHealth(secret: string): (h: Health)
    ensures h == Passing <==> secret != ""
    ensures h == Critical <==> secret == ""
  {
    if secret == "" then Critical else Passing
  }

  /** Project health per tick: critical iff the check reports unhealthy. */
  function ProjectHealth(healthy: bool): (h: Health)
    ensures h == Critical <==> !healthy
    ensures h == Passing <==> healthy
  {
    if healthy then Passing else Critical
  }

  /** onFailedWorkerTTL's test: the text ends with the message and a ")". */
  predicate IsMissingWorkerTTL(msg: string) {
    HasSuffix(msg, MissingTTLText + ")")
  }

  /** onFailedProjectTTL's test: the text starts with the message. */
  predicate IsMissingProjectTTL(msg: string) {
    HasPrefix(msg, MissingTTLText)
  }

  /** The two tests disagree on these two shapes of message: one that passes
      the project's prefix test without ending in ")" fails the worker's test,
      and any
      message wrapped in text before the phrase (as an HTTP client reports
      the agent's answer, "... (CheckID ... does not have associated TTL)")
      passes the worker's test and fails the project's. */
  lemma MissingTTLTestsDisagree(before: string, inner: string)
    requires before != [] && before[0] != MissingTTLText[0]
    ensures IsMissingWorkerTTL(before + inner + MissingTTLText + ")")
    ensures !IsMissingProjectTTL(before + inner + MissingTTLText + ")")
    ensures IsMissingProjectTTL(MissingTTLText) && !IsMissingWorkerTTL(MissingTTLText)
  {
    var msg := before + inner + MissingTTLText + ")";
    var tail := MissingTTLText + ")";
    assert msg == (before + inner) + tail;
    assert msg[|msg| - |tail|..] == tail;
    assert msg[0] == before[0];
    var s := MissingTTLText;
    assert |s| < |s + ")"|;
  }

  /** RegisterProject on registry r: a refused registration changes nothing;
      an accepted one is recorded, then SaveProjectMeta takes the mutex (or
      waits forever for it), and only a successful put stores the metadata
      and the check. */
  function RegisterStep(hostname: string, ttl: int, r: Registry, name: string, ip: string, check: Check,
                        regErr: Option<Error>, putErr: Option<Error>): (Registry, Completion)
  {
    if regErr.Some? then (r, Returned(regErr))
    else
      var services := r.services[name := ProjectServiceFor(hostname, ttl, name, ip)];
      if r.mu then (r.(services := services), Blocked)
      else if putErr.Some? then (r.(services := services, mu := true), Returned(putErr))
      else (Registry(services, r.kv[MetaKey(hostname, name) := MetaJson(ProjectMeta(name, ip))],
                     r.projectChecks[name := ProjectCheck(check, ProjectRenewal(ttl))], true), Returned(None))
  }

  /** The error registerProjects returns for a project it cannot prepare. */
  function PrepError(name: string, p: Prep): Error
    requires !p.Ready?
  {
    match p
    case BadMeta(e) => e
    case NoIP(e) => Message("failed to get container IP for host " + name + ": " + Text(e))
    case VaultFailed(e) => e
  }

  /** registerProjects' loop from registry r: the first project that cannot
      be prepared ends it with its error, a registration that waits on the
      mutex ends it blocked, and RegisterProject's own error is ignored. */
  function RegisterAll(hostname: string, ttl: int, r: Registry, pairs: seq<StoredProject>): (Registry, Completion)
    decreases |pairs|
  {
    if pairs == [] then (r, Returned(None))
    else
      var p := pairs[0];
      var name := ProjectNameFromKVPath(hostname, p.key);
      if !p.prep.Ready? then (r, Returned(Some(PrepError(name, p.prep))))
      else
        var (r', c) := RegisterStep(hostname, ttl, r, name, p.prep.ip, p.check, p.regErr, p.putErr);
        if c.Blocked? then (r', Blocked) else RegisterAll(hostname, ttl, r', pairs[1..])
  }

  /** registerProjects: a failed KV listing is reported with the folder's
      path, else the loop runs over the listed pairs. */
  function RegisterProjectsSpec(hostname: string, ttl: int, r: Registry, listing: Result<seq<StoredProject>>)
    : (Registry, Completion)
  {
    if listing.Fail? then (r, Returned(Some(Message("failed to load KV at path " + KvPath(hostname)))))
    else RegisterAll(hostname, ttl, r, listing.value)
  }

  /** Once the mutex is held, any accepted registration waits forever, and
      the loop never gets past it. */
  lemma {:induction false} HeldMutexBlocks(hostname: string, ttl: int, r: Registry, pairs: seq<StoredProject>, j: nat)
    requires r.mu
    requires j < |pairs| && pairs[j].regErr.None?
    requires forall k :: 0 <= k <= j ==> pairs[k].prep.Ready?
    ensures RegisterAll(hostname, ttl, r, pairs).1 == Blocked
    ensures RegisterAll(hostname, ttl, r, pairs).0.mu
    decreases |pairs|
  {
    var p := pairs[0];
    var name := ProjectNameFromKVPath(hostname, p.key);
    var (r', c) := RegisterStep(hostname, ttl, r, name, p.prep.ip, p.check, p.regErr, p.putErr);
    assert r'.mu;
    if j > 0 && !c.Blocked? {
      HeldMutexBlocks(hostname, ttl, r', pairs[1..], j - 1);
    }
  }

  /** Start-up with two stored projects whose registrations the agent accepts
      never finishes: the first takes the mutex for good, the second waits
      on it, so Register never returns. */
  lemma {:induction false} SecondAcceptedRegistrationBlocks(hostname: string, ttl: int, r: Registry,
                                                            pairs: seq<StoredProject>, i: nat, j: nat)
    requires i < j < |pairs|
    requires pairs[i].regErr.None? && pairs[j].regErr.None?
    requires forall k :: 0 <= k <= j ==> pairs[k].prep.Ready?
    ensures RegisterAll(hostname, ttl, r, pairs).1 == Blocked
    decreases |pairs|
  {
    var p := pairs[0];
    var name := ProjectNameFromKVPath(hostname, p.key);
    var (r', c) := RegisterStep(hostname, ttl, r, name, p.prep.ip, p.check, p.regErr, p.putErr);
    if !c.Blocked? {
      if i == 0 {
        HeldMutexBlocks(hostname, ttl, r', pairs[1..], j - 1);
      } else {
        SecondAcceptedRegistrationBlocks(hostname, ttl, r', pairs[1..], i - 1, j - 1);
      }
    }
  }

  class ConsulProvider {
    /** viper's http.hostname, http.address, http.port and consul.path. */
    const hostname: string
    const address: string
    const port: int
    const consulPath: string
    /** The worker TTL in nanoseconds. */
    const ttl: int
    const secretGetRetry: int

    /** Held once SaveProjectMeta has run: it locks and never unlocks. */
    var mu: bool
    var projectIDtoCheck: map<string, ProjectCheck>
    /** viper's windlass.secret. */
    var secret: string
    /** The Consul agent's registrations by service id. */
    var services: map<string, Service>
    /** The last status the agent accepted per check id. */
    var checks: map<string, CheckStatus>
    /** The Consul KV store. */
    var kv: map<string, KvEntry>
    /** The worker ticker's period, once udpateWorkerTTL has started it. */
    var workerTicker: Option<int>
    /** Seconds slept between secret attempts, in nanoseconds. */
    ghost var slept: int

    /** NewConsulProvider: a 10s TTL, five secret attempts, no checks yet. */
    constructor (hostname: string, address: string, port: int, consulPath: string,
                 secret: string, services: map<string, Service>, kv: map<string, KvEntry>)
      ensures this.hostname == hostname && this.address == address && this.port == port
      ensures this.consulPath == consulPath
      ensures ttl == DefaultTTL && secretGetRetry == SecretGetRetry
      ensures !mu && projectIDtoCheck == map[] && workerTicker == None
      ensures this.secret == secret && this.services == services && checks == map[] && this.kv == kv
      ensures slept == 0
    {
      this.hostname := hostname;
      this.address := address;
      this.port := port;
      this.consulPath := consulPath;
      ttl := DefaultTTL;
      secretGetRetry := SecretGetRetry;
      mu := false;
      projectIDtoCheck := map[];
      this.secret := secret;
      this.services := services;
      checks := map[];
      this.kv := kv;
      workerTicker := None;
      slept := 0;
    }

    function Id(): string {
      WorkerId(hostname, port)
    }

    /** The registration registerWorker sends: TTL check of ttl, no tags. */
    function WorkerService(): Service {
      Service(Id(), WorkerServiceName, [], address, port, ttl, None)
    }

    function ProjectService(name: string, ip: string): Service {
      ProjectServiceFor(hostname, ttl, name, ip)
    }

    /** The state RegisterProject and registerProjects change. */
    function RegistryState(): Registry
      reads this
    {
      Registry(services, kv, projectIDtoCheck, mu)
    }

    /** registerWorker; `regErr` is the agent's answer. */
    method RegisterWorker(regErr: Option<Error>) returns (err: Option<Error>)
      modifies this
      ensures err == regErr
      ensures services == if regErr.None? then old(services)[Id() := WorkerService()] else old(services)
      ensures mu == old(mu) && projectIDtoCheck == old(projectIDtoCheck) && secret == old(secret)
      ensures checks == old(checks) && kv == old(kv) && workerTicker == old(workerTicker) && slept == old(slept)
    {
      if regErr.None? {
        services := services[Id() := WorkerService()];
      }
      err := regErr;
    }

    /** Register: the worker, then its projects, each failure wrapped; the
        worker ticker starts only when both succeed. Start-up waits forever
        if a project's registration blocks on the mutex. */
    method Register(regErr: Option<Error>, listing: Result<seq<StoredProject>>) returns (c: Completion)
      modifies this
      ensures regErr.Some? ==>
        && c == Returned(Some(Errorf(WorkerFailurePrefix, regErr.value)))
        && RegistryState() == old(RegistryState())
      ensures regErr.None? ==>
        var projects := RegisterProjectsSpec(hostname, ttl, old(RegistryState()).(services := old(services)[Id() := WorkerService()]), listing);
        && RegistryState() == projects.0
        && (projects.1 == Blocked ==> c == Blocked)
        && (projects.1 == Returned(None) ==> c == Returned(None))
        && (projects.1.Returned? && projects.1.err.Some? ==>
              c == Returned(Some(Errorf(ProjectsFailurePrefix, projects.1.err.value))))
      ensures workerTicker == if c == Returned(None) then Some(WorkerRenewal(ttl)) else old(workerTicker)
      ensures secret == old(secret) && checks == old(checks) && slept == old(slept)
    {
      var e := RegisterWorker(regErr);
      if e.Some? {
        return Returned(Some(Errorf(WorkerFailurePrefix, e.value)));
      }
      c := RegisterProjects(listing);
      if c.Blocked? {
        return;
      }
      if c.err.Some? {
        return Returned(Some(Errorf(ProjectsFailurePrefix, c.err.value)));
      }
      workerTicker := Some(WorkerRenewal(ttl));
    }

    /** registerProjects; `listing` is the KV store's answer for kvPath, each
        pair carrying the answers its own steps get. */
    method RegisterProjects(listing: Result<seq<StoredProject>>) returns (c: Completion)
      modifies this
      ensures (RegistryState(), c) == RegisterProjectsSpec(hostname, ttl, old(RegistryState()), listing)
      ensures secret == old(secret) && checks == old(checks) && workerTicker == old(workerTicker) && slept == old(slept)
    {
      if listing.Fail? {
        return Returned(Some(Message("failed to load KV at path " + KvPath(hostname))));
      }
      var pairs := listing.value;
      ghost var r0 := RegistryState();
      var i := 0;
      while i < |pairs|
        invariant 0 <= i <= |pairs|
        invariant RegisterAll(hostname, ttl, r0, pairs) == RegisterAll(hostname, ttl, RegistryState(), pairs[i..])
        invariant secret == old(secret) && checks == old(checks) && workerTicker == old(workerTicker) && slept == old(slept)
      {
        var p := pairs[i];
        assert pairs[i..][0] == p && pairs[i..][1..] == pairs[i + 1..];
        var name := ProjectNameFromKVPath(hostname, p.key);
        if !p.prep.Ready? {
          return Returned(Some(PrepError(name, p.prep)));
        }
        c := RegisterProject(name, p.prep.ip, p.check, p.regErr, p.putErr);
        if c.Blocked? {
          return;
        }
        i := i + 1;
      }
      return Returned(None);
    }

    /** SaveProjectMeta: lock mu (forever, if another call holds it), then put
        the metadata under kvPath/ID; `putErr` is the KV store's answer. */
    method SaveProjectMeta(meta: ProjectMeta, putErr: Option<Error>) returns (c: Completion)
      modifies this
      ensures old(mu) ==> c == Blocked && kv == old(kv)
      ensures !old(mu) ==> c == Returned(putErr)
      ensures !old(mu) && putErr.None? ==> kv == old(kv)[MetaKey(hostname, meta.id) := MetaJson(meta)]
      ensures !old(mu) && putErr.Some? ==> kv == old(kv)
      ensures mu
      ensures projectIDtoCheck == old(projectIDtoCheck) && secret == old(secret) && services == old(services)
      ensures checks == old(checks) && workerTicker == old(workerTicker) && slept == old(slept)
    {
      if mu {
        return Blocked;
      }
      mu := true;
      if putErr.None? {
        kv := kv[MetaKey(hostname, meta.id) := MetaJson(meta)];
      }
      c := Returned(putErr);
    }

    /** updateProjectTTL's synchronous part: record the check and its ticker
        period, replacing any earlier entry for the id. */
    method UpdateProjectTTL(id: string, ip: string, check: Check)
      modifies this
      ensures projectIDtoCheck == old(projectIDtoCheck)[id := ProjectCheck(check, ProjectRenewal(ttl))]
      ensures mu == old(mu) && secret == old(secret) && services == old(services)
      ensures checks == old(checks) && kv == old(kv) && workerTicker == old(workerTicker) && slept == old(slept)
    {
      projectIDtoCheck := projectIDtoCheck[id := ProjectCheck(check, ProjectRenewal(ttl))];
    }

    /** RegisterProject: register the service, save the metadata, start the
        renewal, stopping at the first failure. */
    method RegisterProject(name: string, ip: string, check: Check, regErr: Option<Error>, putErr: Option<Error>)
      returns (c: Completion)
      modifies this
      ensures regErr.Some? ==> c == Returned(regErr) && services == old(services) && kv == old(kv)
                               && mu == old(mu) && projectIDtoCheck == old(projectIDtoCheck)
      ensures regErr.None? ==> services == old(services)[name := ProjectService(name, ip)] && mu
      ensures regErr.None? && old(mu) ==> c == Blocked && kv == old(kv) && projectIDtoCheck == old(projectIDtoCheck)
      ensures regErr.None? && !old(mu) ==> c == Returned(putErr)
      ensures regErr.None? && !old(mu) && putErr.Some? ==> kv == old(kv) && projectIDtoCheck == old(projectIDtoCheck)
      ensures regErr.None? && !old(mu) && putErr.None? ==>
        && kv == old(kv)[MetaKey(hostname, name) := MetaJson(ProjectMeta(name, ip))]
        && projectIDtoCheck == old(projectIDtoCheck)[name := ProjectCheck(check, ProjectRenewal(ttl))]
      ensures secret == old(secret) && checks == old(checks) && workerTicker == old(workerTicker) && slept == old(slept)
      ensures (RegistryState(), c) == RegisterStep(hostname, ttl, old(RegistryState()), name, ip, check, regErr, putErr)
    {
      if regErr.Some? {
        return Returned(regErr);
      }
      services := services[name := ProjectService(name, ip)];
      c := SaveProjectMeta(ProjectMeta(name, ip), putErr);
      if c != Returned(None) {
        return;
      }
      UpdateProjectTTL(name, ip, check);
    }

    /** onFailedWorkerTTL: re-register the worker only for the missing-TTL
        error, else nil. */
    method OnFailedWorkerTTL(err: Error, regErr: Option<Error>) returns (r: Option<Error>)
      modifies this
      ensures IsMissingWorkerTTL(Text(err)) ==>
        r == regErr && services == (if regErr.None? then old(services)[Id() := WorkerService()] else old(services))
      ensures !IsMissingWorkerTTL(Text(err)) ==> r == None && services == old(services)
      ensures mu == old(mu) && projectIDtoCheck == old(projectIDtoCheck) && secret == old(secret)
      ensures checks == old(checks) && kv == old(kv) && workerTicker == old(workerTicker) && slept == old(slept)
    {
      if IsMissingWorkerTTL(Text(err)) {
        r := RegisterWorker(regErr);
      } else {
        r := None;
      }
    }

    /** One tick of the worker's renewal goroutine: report the health the
        secret implies; on failure, onFailedWorkerTTL with the agent's answer
        `regErr` to a re-registration. */
    method WorkerTick(updateErr: Option<Error>, regErr: Option<Error>)
      modifies this
      ensures updateErr.None? ==> checks == old(checks)[CheckId(Id()) := CheckStatus("", WorkerHealth(secret))]
                                  && services == old(services)
      ensures updateErr.Some? ==>
        && checks == old(checks)
        && services == (if IsMissingWorkerTTL(Text(updateErr.value)) && regErr.None?
                        then old(services)[Id() := WorkerService()] else old(services))
      ensures mu == old(mu) && projectIDtoCheck == old(projectIDtoCheck) && secret == old(secret)
      ensures kv == old(kv) && workerTicker == old(workerTicker) && slept == old(slept)
    {
      var health := WorkerHealth(secret);
      if updateErr.None? {
        checks := checks[CheckId(Id()) := CheckStatus("", health)];
      } else {
        var _ := OnFailedWorkerTTL(updateErr.value, regErr);
      }
    }

    /** One tick of a project's renewal goroutine, with the check it was
        started with: run it on the ip, report its message and health. The
        agent's error is discarded, so nothing but the check status can
        change, whatever the error says. */
    method ProjectTick(id: string, ip: string, run: string -> (string, bool), updateErr: Option<Error>)
      modifies this
      ensures updateErr.None? ==>
        checks == old(checks)[CheckId(id) := CheckStatus(run(ip).0, ProjectHealth(run(ip).1))]
      ensures updateErr.Some? ==> checks == old(checks)
      ensures mu == old(mu) && projectIDtoCheck == old(projectIDtoCheck) && secret == old(secret)
      ensures services == old(services) && kv == old(kv) && workerTicker == old(workerTicker) && slept == old(slept)
    {
      var (msg, healthy) := run(ip);
      var health := ProjectHealth(healthy);
      if updateErr.None? {
        checks := checks[CheckId(id) := CheckStatus(msg, health)];
      }
    }

    /** The check onFailedProjectTTL re-registers with: the stored one, or nil. */
    function StoredCheck(id: string): (c: Check)
      reads this
      ensures id in projectIDtoCheck ==> c == projectIDtoCheck[id].check
      ensures id !in projectIDtoCheck ==> c == NilCheck
    {
      if id in projectIDtoCheck then projectIDtoCheck[id].check else NilCheck
    }

    /** onFailedProjectTTL: re-register the project with its stored check only
        for the missing-TTL error, else nil. No tick calls it. */
    method OnFailedProjectTTL(id: string, ip: string, err: Error, regErr: Option<Error>, putErr: Option<Error>)
      returns (c: Completion)
      modifies this
      ensures !IsMissingProjectTTL(Text(err)) ==>
        && c == Returned(None) && services == old(services)
        && kv == old(kv) && mu == old(mu) && projectIDtoCheck == old(projectIDtoCheck)
      ensures IsMissingProjectTTL(Text(err)) && regErr.Some? ==>
        && c == Returned(regErr) && services == old(services)
        && kv == old(kv) && mu == old(mu) && projectIDtoCheck == old(projectIDtoCheck)
      ensures IsMissingProjectTTL(Text(err)) && regErr.None? ==>
        services == old(services)[id := ProjectService(id, ip)] && mu
      ensures IsMissingProjectTTL(Text(err)) && regErr.None? && old(mu) ==>
        c == Blocked && kv == old(kv) && projectIDtoCheck == old(projectIDtoCheck)
      ensures IsMissingProjectTTL(Text(err)) && regErr.None? && !old(mu) ==> c == Returned(putErr)
      ensures IsMissingProjectTTL(Text(err)) && regErr.None? && !old(mu) && putErr.Some? ==>
        kv == old(kv) && projectIDtoCheck == old(projectIDtoCheck)
      ensures IsMissingProjectTTL(Text(err)) && regErr.None? && !old(mu) && putErr.None? ==>
        && kv == old(kv)[MetaKey(hostname, id) := MetaJson(ProjectMeta(id, ip))]
        && projectIDtoCheck == old(projectIDtoCheck)[id := ProjectCheck(old(StoredCheck(id)), ProjectRenewal(ttl))]
      ensures secret == old(secret) && checks == old(checks) && workerTicker == old(workerTicker) && slept == old(slept)
    {
      if IsMissingProjectTTL(Text(err)) {
        c := RegisterProject(id, ip, StoredCheck(id), regErr, putErr);
      } else {
        c := Returned(None);
      }
    }

    /** GetAndSetSharedSecret: the bounded retry on consul.path/secret, the
        secret cached on success; attempt j gets KV answer reply(j). */
    method GetAndSetSharedSecret(reply: nat -> KvReply) returns (err: Option<Error>)
      modifies this
      ensures var b := SecretRetry(SecretPath(consulPath), reply, secretGetRetry, 0, None);
        && err == b.err
        && secret == (if b.secret.Some? then b.secret.value else old(secret))
        && slept == old(slept) + b.sleeps * SecretRetrySleep
      ensures mu == old(mu) && projectIDtoCheck == old(projectIDtoCheck) && services == old(services)
      ensures checks == old(checks) && kv == old(kv) && workerTicker == old(workerTicker)
    {
      var b := RetrySecret(SecretPath(consulPath), reply, secretGetRetry);
      if b.secret.Some? {
        secret := b.secret.value;
      }
      slept := slept + b.sleeps * SecretRetrySleep;
      err := b.err;
    }
  }
}
