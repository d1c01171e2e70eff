/** POST /projects (app/api/v1/projectsEndpoint.go): decode and validate the
    project, run CreateHost under the derived host name, and turn its error
    into a status. Project.HostName is not among the files modelled, so it is
    a parameter. */
module ProjectsEndpoint {
  import opened Errors
  import Project
  import HostService
  import Providers
  import LxdContainerHost
  import Strings

  /** What the handler leaves on the wire: a status with the error's text as
      content; nothing written (net/http then sends 200 with an empty body);
      or no answer at all, the handler waiting forever. */
  datatype Reply = Rendered(status: int, content: string) | Implicit200 | Hangs

  /** render.Bind: the JSON decoder's failure, else Project.Bind's verdict. */
  function BindOutcome(body: Result<Project.Project>): (r: Option<Error>)
    ensures body.Fail? ==> r == Some(body.error)
    ensures body.Ok? ==> r == Project.Bind(body.value)
  {
    if body.Fail? then Some(body.error) else Project.Bind(body.value)
  }

  /** The reply for CreateHost's outcome: a host.Error value keeps its own
      status, any other error is 500, nil writes nothing. */
  function HostReply(c: Providers.Completion): (r: Reply)
    ensures c == Providers.Blocked <==> r == Hangs
    ensures c == Providers.Returned(None) <==> r == Implicit200
    ensures c.Returned? && c.err.Some? && c.err.value.HostError? ==>
      r == Rendered(c.err.value.StatusCode, Text(c.err.value))
    ensures c.Returned? && c.err.Some? && !c.err.value.HostError? ==>
      r == Rendered(StatusInternalServerError, Text(c.err.value))
  {
    match c
    case Blocked => Hangs
    case Returned(None) => Implicit200
    case Returned(Some(e)) =>
      if e.HostError? then Rendered(e.StatusCode, Text(e)) else Rendered(StatusInternalServerError, Text(e))
  }

  class ProjectEndpoint {
    const hostService: HostService.ContainerHostService

    constructor (hostService: HostService.ContainerHostService)
      ensures this.hostService == hostService
    {
      this.hostService := hostService;
    }

    /** createProject: a request that does not bind is answered 400 without
        CreateHost being called, and nothing changes; otherwise CreateHost
        decides the reply and leaves its effects on the driver, the issuer,
        the store and the registry. */
    method CreateProject(body: Result<Project.Project>, hostName: Project.Project -> string, env: HostService.Env)
      returns (r: Reply)
      modifies hostService, hostService.repo, hostService.consul, hostService.tlsService, hostService.tlsStorageRepo
      ensures BindOutcome(body).Some? ==>
        && r == Rendered(StatusBadRequest, Text(BindOutcome(body).value))
        && unchanged(hostService, hostService.repo, hostService.consul, hostService.tlsService, hostService.tlsStorageRepo)
      ensures BindOutcome(body).None? ==>
        var run := HostService.Pipeline(hostName(body.value), env, old(hostService.consul.mu));
        && r == HostReply(run.result)
        && hostService.calls == old(hostService.calls) + run.calls
      ensures BindOutcome(body).None? && env.create.None? && env.start.None? && env.ip.Ok? ==>
        hostService.tlsService.serverIP == env.ip.value
      ensures BindOutcome(body).None? && !(env.create.None? && env.start.None? && env.ip.Ok?) ==>
        hostService.tlsService.serverIP == old(hostService.tlsService.serverIP)
      ensures BindOutcome(body).None? && !(env.create.None? && env.start.None? && env.ip.Ok? && HostService.Bundle(env).Ok?) ==>
        && hostService.repo.clientCerts == old(hostService.repo.clientCerts)
        && hostService.tlsStorageRepo.secrets == old(hostService.tlsStorageRepo.secrets)
        && hostService.consul.services == old(hostService.consul.services)
        && hostService.consul.kv == old(hostService.consul.kv)
        && hostService.consul.projectIDtoCheck == old(hostService.consul.projectIDtoCheck)
      ensures BindOutcome(body).None? && env.create.None? && env.start.None? && env.ip.Ok? && HostService.Bundle(env).Ok? ==>
        hostService.DeliveryEffects(hostName(body.value), env.ip.value, HostService.Bundle(env).value, env,
                                    old(hostService.consul.mu), old(hostService.repo.clientCerts),
                                    old(hostService.tlsStorageRepo.secrets), old(hostService.consul.services),
                                    old(hostService.consul.kv), old(hostService.consul.projectIDtoCheck))
      ensures BindOutcome(body).None? ==>
        hostService.consul.mu == HostService.MuAfter(hostName(body.value), env, old(hostService.consul.mu))
      ensures hostService.consul.secret == old(hostService.consul.secret)
      ensures hostService.consul.checks == old(hostService.consul.checks)
      ensures hostService.consul.workerTicker == old(hostService.consul.workerTicker)
      ensures hostService.consul.slept == old(hostService.consul.slept)
    {
      var bound := BindOutcome(body);
      if bound.Some? {
        return Rendered(StatusBadRequest, Text(bound.value));
      }
      var c := hostService.CreateHost(hostName(body.value), env);
      r := HostReply(c);
    }
  }

  /** Two POSTs in a row that bind and whose pipelines succeed with the
      registration accepted: the first (with the lock free) is answered 200,
      the second waits on the lock the first left held and is never
      answered. */
  lemma SecondAcceptedPostHangs(name1: string, env1: HostService.Env, name2: string, env2: HostService.Env, muHeld: bool)
    requires HostService.FirstFailing(env1) == 8 && env1.register.None?
    requires HostService.FirstFailing(env2) == 8 && env2.register.None?
    ensures !muHeld ==> HostReply(HostService.Pipeline(name1, env1, muHeld).result) == Implicit200
    ensures HostReply(HostService.Pipeline(name2, env2, HostService.MuAfter(name1, env1, muHeld)).result) == Hangs
  {
    HostService.PipelineShape(name1, env1, muHeld);
    HostService.SecondCreateHostHangs(name1, env1, name2, env2, muHeld);
  }

  /** A project name that fails validation is answered 400 with the format
      error, before and whatever the host would have answered. */
  lemma MalformedNameIs400(p: Project.Project)
    requires !Project.InLanguage(Project.Joined(p))
    ensures BindOutcome(Ok(p)) == Some(Project.ErrInvalidFormat)
    ensures Text(BindOutcome(Ok(p)).value) == "project name bad format"
  {
  }

  /** End to end, an LXD create failure whose text ends with LXD's "already
      exists" message reaches the client as 409 with ErrHostExists's text,
      whatever the wait and the later steps would have answered. */
  lemma ExistingContainerIs409(name: string, env: HostService.Env, e: Error, waitErr: Option<Error>, muHeld: bool)
    requires Strings.HasSuffix(Text(e), LxdContainerHost.AlreadyExistsSuffix)
    requires env.create == LxdContainerHost.CreateContainerHost(Some(e), waitErr)
    ensures HostReply(HostService.Pipeline(name, env, muHeld).result) ==
      Rendered(StatusConflict, "container host aleady exists")
  {
    ErrHostExistsIsConflict();
  }

  /** The certificate push's combined errors are not a host.Error value, so
      however many writes fail the client sees 500. */
  lemma CombinedPushErrorIs500(es: seq<Error>)
    ensures HostReply(Providers.Returned(Some(Combined(es)))).status == StatusInternalServerError
  {
  }
}
