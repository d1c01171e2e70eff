# Windlass worker: a Dafny model

The Windlass worker provisions one container host per project. A request
`POST /projects` is first checked against the shared secret. Its project
identity (`namespace-name`) is then validated. After that, a nine-step
pipeline runs:

1. create the LXD container;
2. start it;
3. discover its IPv4 address;
4. issue a per-host PKI bundle (a root CA, a server leaf and a client leaf);
5. push the certificates into the container;
6. restart nginx;
7. switch the driver to the client certificates;
8. store the bundle in Vault;
9. register the project with Consul under a TTL health check.

Alongside this, the worker registers itself with Consul, renews its TTL and
the projects' TTLs on tickers, and bootstraps the shared secret from Consul's
KV store with a bounded retry.

The model has one module per core source file, plus three shared modules:

- `Strings` holds the string helpers of Go's standard library.
- `Errors` holds Go error values, `host.Error`, `multierr.Combine` and the HTTP statuses.
- `ConsulAgent` holds the Consul shapes, the TTL arithmetic and the secret retry that all three registry revisions share.

How the Go code is mapped:

- Pure Go code becomes functions with lemmas.
- Code that changes state becomes classes whose methods update fields: registry state, the Vault store, container files, the driver's certificates and the pipeline's call trace.
- Loops become methods with invariants, proved against recursive specification functions.
- Every answer from Consul, Vault, LXD, the crypto library, the clock or randomness is a parameter of the operation that receives it.

File by file:

- `project.dfy` (`Project`): the identity regex is compiled to a five-state automaton, which is proved to accept exactly the declared language. `Bind` checks the format first and the length second.
- `auth.dfy` (`Auth`): the request gate answers 503 while the secret is unset. It answers 403 for a missing or wrong `X-Auth-Token`. Otherwise it passes the request on.
- `tls_cert_service.dfy` (`TlsCertService`): the root, server and client templates, kept in the terms of RFC 5280. The crypto is symbolic: keys are drawn values, a certificate is the term that would be signed, and a PEM block is its type label around its body (section 5 of RFC 7468). `CreatePEMs` records the server IP and assembles the bundle. As in the code, `ServerCAPEM` holds the root private key and `ClientCAPEM` the root certificate.
- `vault_tls_storage.dfy` (`VaultTlsStorage`): the six-field Vault record, the four-field read-back and their round trip.
- `lxd_container_host.dfy` (`LxdContainerHost`): `parseError`, create and start, and IP discovery. Discovery is the first `inet` address of eth0; each attempt is permanent or retryable, under a bounded retry. `PushAuthCerts` performs five writes whatever each one answers and combines their errors. `Ping` never fails.
- `consul_agent.dfy`, `providers_consul.dfy` (`ConsulAgent`, `Providers`): the current registry. It covers the KV key scheme and its inverse, the per-tick health rules and `projectIDtoCheck`. `SaveProjectMeta` locks its mutex and never unlocks it, so a second save blocks forever. As a result, start-up with two stored projects never finishes, and neither does the second successful project creation. The project tick discards errors. The two "missing TTL" tests disagree.
- `connections_consul.dfy`, `consul_connection.dfy` (`Connections`, `ConsulConnection`): the two older registry revisions. One keeps each tick's error in `ttlError`. The other picks its own IPv4 address with `getIP`.
- `host_service.dfy` (`HostService`): `CreateHost`. It stops at the first failure and returns that error unchanged. It undoes nothing and ignores the registry's answer.
- `projects_endpoint.dfy` (`ProjectsEndpoint`): `createProject` turns a decode or validation failure into 400, a `host.Error` into its own status, and any other error into 500.

## Model

| member | source | states |
|---|---|---|
| Errors.NewError | app/repositories/containerHost/errors.go:12-18 | a `newError` value is a `host.Error` whose `StatusCode` is the given status and whose `Error()` text is exactly the given message |
| Errors.ErrHostExistsIsConflict | app/repositories/containerHost/errors.go:21 | `ErrHostExists` is a `host.Error` with status 409 and text "container host aleady exists" |
| Errors.Combine | app/repositories/containerHost/lxdContainerHostRepo.go:123-139 | the combined error is nil iff every part is nil; a single failure comes back as itself; two or more come back together, in order |
| Project.MatchStringIff | app/models/project/project.go:18 | the automaton run over the whole string accepts exactly the strings that start with a letter, end with a letter or digit, and have only letters, digits and `-` in between (so length at least 2) |
| Project.Bind | app/models/project/project.go:29-39 | nil iff the joined identity is in the pattern's language and `len(namespace)+len(name)+1 <= 62`; `ErrInvalidFormat` iff it is not in the language; `ErrNameTooLong` iff it is in the language but longer |
| Project.AcceptedShape | app/models/project/project.go:18 | an accepted joined identity is 2 to 62 characters long, starts with a letter, ends with a letter or digit and holds only `[A-Za-z0-9-]` |
| Project.EmptyPartRejected | app/models/project/project.go:30-32 | an empty namespace or an empty name always gives `ErrInvalidFormat` |
| Project.FormatCheckedBeforeLength | app/models/project/project.go:30-36 | any too-long identity that the regular expression rejects is reported as `ErrInvalidFormat`, never as `ErrNameTooLong` |
| Project.BadNameCharRejected | app/models/project/project.go:18-32 | a name holding any character other than letters, digits and `-` gets `ErrInvalidFormat`, whatever its length |
| Project.LengthBoundary | app/models/project/project.go:34-36 | a well-formed joined identity of length 62 is accepted, and one of length 63 gets `ErrNameTooLong` |
| Project.AcmeWebAccepted | app/models/project/project.go:29-39 | the identity acme/web is accepted |
| Auth.CheckSharedSecret | middleware/auth.go:12-28 | the next handler runs iff the secret is set and the token equals it; 503 iff the secret is unset; 403 iff the secret is set and the token differs (an empty token included) |
| Auth.UnsetSecretRefusesAll | middleware/auth.go:13-16 | with no secret, every request gets 503, whatever headers it carries |
| Auth.MissingTokenForbidden | middleware/auth.go:18-21 | with the secret set, a request without `X-Auth-Token` gets 403 |
| TlsCertService.GenerateRootParts | app/services/tlsCertService.go:51-82 | fails iff key generation, marshalling or signing fails, with the first such error; on success the certificate is a self-signed CA over the drawn key, with key usage {CertSign}, no extended usage, no IP names, a serial below 2^128 and a ten-year window |
| TlsCertService.GenerateServerParts | app/services/tlsCertService.go:84-117 | same failure rule; on success the leaf is issued by the root template, signed by the root key, over the drawn key; it is not a CA, has key usage {DigitalSignature, KeyEncipherment}, extended usage [ClientAuth, ServerAuth], exactly the server IP as IP name, a serial below 2^128 and a ten-year window |
| TlsCertService.GenerateClientParts | app/services/tlsCertService.go:119-148 | same failure rule; on success the leaf is issued and signed by the root; it is not a CA, has serial 4, key usage {DigitalSignature}, extended usage [ClientAuth], no IP names and a ten-year window |
| TlsCertService.TLSCertService.CreatePEMs | app/services/tlsCertService.go:159-184 | stores the server IP in the service, then returns the bundle issued for that IP from root, server and client parts, or the first failure |
| TlsCertService.IssueBundleFailure | app/services/tlsCertService.go:161-174 | a bundle comes back iff no generator fails; otherwise the error is the root's, else the server's, else the client's |
| TlsCertService.IssuedBundleChains | app/services/tlsCertService.go:176-183 | in an issued bundle, `ClientCAPEM` is a self-signed CA certificate and both leaves verify under it; the server leaf names exactly the server IP; `ServerCAPEM` is the root's private key (not a certificate); each leaf key matches its certificate |
| TlsCertService.BundleValidity | app/services/tlsCertService.go:65-138 | `tenYears` is 87600 hours; every certificate's NotAfter is ten years after its own clock read; the root's window is at least ten years long when the clock does not run backwards |
| TlsCertService.BundleSerials | app/services/tlsCertService.go:52-131 | the root and server serials are the drawn random values below 2^128, within the 20-octet limit of section 4.1.2.2 of RFC 5280; the client serial is 4 |
| VaultTlsStorage.CertRecord | app/repositories/tlsStorage/vaultTlsStorageRepo.go:23-25 | the written record has exactly the six keys server_ca, client_ca, server_key, server_cert, client_key and client_cert, each bound to the matching block |
| VaultTlsStorage.ReadCerts | app/repositories/tlsStorage/vaultTlsStorageRepo.go:28-38 | succeeds iff Vault reads without error and the path holds a record; every failure is a new error prefixed "failed getting TLS data from Vault: "; success returns the record's four leaf fields |
| VaultTlsStorage.VaultTlsStorageRepo.PushAuthCerts | app/repositories/tlsStorage/vaultTlsStorageRepo.go:22-26 | returns Vault's answer; on success the store maps `vault.path + key` to the six-field record and nothing else changes; on failure nothing changes |
| VaultTlsStorage.VaultTlsStorageRepo.GetAuthCerts | app/repositories/tlsStorage/vaultTlsStorageRepo.go:28-39 | reads `vault.path + key`, the path `PushAuthCerts` writes: succeeds iff Vault answers and that path holds a record, returning its server key, server certificate, client key and client certificate; a Vault error comes back prefixed "failed getting TLS data from Vault: ", and a missing record as that prefix followed by "nothing found in Vault at given prefix" |
| VaultTlsStorage.PushThenGet | app/repositories/tlsStorage/vaultTlsStorageRepo.go:22-38 | after a push under a key, a read of that key returns the same server key, server certificate, client key and client certificate, whatever else the store held |
| VaultTlsStorage.CaFieldsNotRead | app/repositories/tlsStorage/vaultTlsStorageRepo.go:33-38 | two stores differing only in a record's CA fields read back identically |
| VaultTlsStorage.MissingIsError | app/repositories/providers/vaultProvider.go:41-43 | a key with no record reads as the error "failed getting TLS data from Vault: nothing found in Vault at given prefix", never as an empty container |
| LxdContainerHost.Ping | app/repositories/containerHost/lxdContainerHostRepo.go:41-43 | the LXD driver's ping always returns nil |
| LxdContainerHost.ParseError | app/repositories/containerHost/lxdContainerHostRepo.go:45-53 | nil iff nil; an error whose text ends with "This container already exists" becomes `ErrHostExists`; any other error is returned unchanged |
| LxdContainerHost.ParseErrorIdempotent | app/repositories/containerHost/lxdContainerHostRepo.go:45-53 | mapping twice is mapping once |
| LxdContainerHost.CreateContainerHost | app/repositories/containerHost/lxdContainerHostRepo.go:81-86 | nil iff both the create call and the wait succeed; the create error, else the wait error, goes through `parseError` |
| LxdContainerHost.StartContainerHost | app/repositories/containerHost/lxdContainerHostRepo.go:94-98 | an update failure is returned as is, without waiting; otherwise the wait's answer is returned as is; neither goes through `parseError`; so nil iff both succeed |
| LxdContainerHost.ConflictOnlyFromCreate | app/repositories/containerHost/lxdContainerHostRepo.go:81-98 | LXD's "already exists" text becomes 409 from create or its wait, but not from start |
| LxdContainerHost.FirstInetIsFirst | app/repositories/containerHost/lxdContainerHostRepo.go:110-115 | the selected address is that of the first entry in list order whose family is "inet"; none is selected iff no entry is "inet" |
| LxdContainerHost.FindInet | app/repositories/containerHost/lxdContainerHostRepo.go:110-115 | the scan over eth0's addresses returns the first "inet" address |
| LxdContainerHost.AttemptIP | app/repositories/containerHost/lxdContainerHostRepo.go:104-117 | a `GetContainerState` error is a permanent failure; a state without an "inet" address on eth0 is a retryable "failed to find ipv4 address for container"; otherwise the first such address |
| LxdContainerHost.GetContainerHostIP | app/repositories/containerHost/lxdContainerHostRepo.go:101-120 | the retry loop returns what the retry specification gives for the attempts' answers |
| LxdContainerHost.RetryDecidedByFirstDecisive | app/repositories/containerHost/lxdContainerHostRepo.go:103-119 | the result is decided by the first attempt that is not retryable (its address, or its permanent error, with later answers unread); if every allowed attempt is retryable, the result is "" with the no-IPv4 error |
| LxdContainerHost.LxdHost.CreateContainerFile | app/repositories/containerHost/lxdContainerHostRepo.go:124-126 | records one write as uid 33, gid 33, mode 400; the file changes only when LXD accepts the write |
| LxdContainerHost.LxdHost.PushAuthCerts | app/repositories/containerHost/lxdContainerHostRepo.go:122-142 | all five writes to `/nginx` are issued in order, whatever the earlier ones answered; the files are the five writes applied in order; the error is the combination of the five answers, so it is nil iff every write succeeded |
| LxdContainerHost.LxdHost.WriteCert | app/repositories/containerHost/lxdContainerHostRepo.go:124-138 | one of the five writes to `/nginx`: it is recorded, and the files become those after the earlier writes followed by this one |
| LxdContainerHost.RefusedWritesChangeNothing | app/repositories/containerHost/lxdContainerHostRepo.go:123-139 | when LXD refuses every write, the container's files are unchanged |
| LxdContainerHost.LastAcceptedWriteSurvives | app/repositories/containerHost/lxdContainerHostRepo.go:123-139 | all five blocks go to the same path, so after the writes that file holds the content of the last write LXD accepted |
| LxdContainerHost.OtherFilesUntouched | app/repositories/containerHost/lxdContainerHostRepo.go:123-139 | the writes neither add, remove nor change any other file |
| ConsulAgent.CheckId | app/repositories/providers/consulProvider.go:203 | the check id is "service:" followed by the service id, and stripping the prefix gives the id back |
| ConsulAgent.DefaultTiming | app/repositories/providers/consulProvider.go:174-215 | with the 10 s TTL, the worker renews every 5 s; a project's TTL is 50 s and it renews every 25 s |
| ConsulAgent.RenewalsWithinTTL | app/repositories/providers/consulProvider.go:196-215 | for every TTL of at least 2 ns, both renewal periods are positive and strictly shorter than their TTLs |
| ConsulAgent.RefreshIsHalfTTL | app/connections/consulProvider.go:37-38 | the older revision's configured `refreshTTL` of 5 s equals `ttl/2`, the period its ticker actually uses |
| ConsulAgent.SecretAttempt | app/repositories/providers/consulProvider.go:240-253 | an attempt succeeds iff the key holds a value, yielding that value; an absent key fails with "key <path> not set"; a KV error is returned as is |
| ConsulAgent.RetrySecret | app/repositories/providers/consulProvider.go:255-268 | the counting loop returns the recursive retry specification's outcome: error, attempts, sleeps and cached secret |
| ConsulAgent.SecretRetryBounded | app/repositories/providers/consulProvider.go:255-268 | at most `count` attempts are made; a sleep follows every failed attempt, the last one included |
| ConsulAgent.SecretRetryFirstSuccess | app/repositories/providers/consulProvider.go:257-261 | at the first attempt that finds the secret, the loop stops with nil and caches that value |
| ConsulAgent.SecretRetryAllFail | app/repositories/providers/consulProvider.go:257-268 | when every attempt fails, all are made, each is followed by a sleep, nothing is cached and the last attempt's error is returned |
| ConsulAgent.SecretNeverSet | app/repositories/providers/consulProvider.go:239-268 | a secret that is never set gives up after five attempts and five 3 s sleeps with "key <path> not set" |
| Providers.ProjectNameInvertsMetaKey | app/repositories/providers/consulProvider.go:304-306 | `projectNameFromKVPath(kvPath()+"/"+id) == id` iff `id` does not end in "/" |
| Providers.WorkerHealth | app/repositories/providers/consulProvider.go:198-201 | passing iff the shared secret is non-empty, critical iff it is empty |
| Providers.ProjectHealth | app/repositories/providers/consulProvider.go:222-230 | critical iff the check reports unhealthy |
| Providers.MissingTTLTestsDisagree | app/repositories/providers/consulProvider.go:289-302 | the worker's suffix test and the project's prefix test disagree: a bare "does not have associated TTL" passes only the project's test, and the agent's wrapped message passes only the worker's |
| Providers.ConsulProvider.constructor | app/repositories/providers/consulProvider.go:41-59 | TTL 10 s, five secret attempts, an empty check map and an unlocked mutex |
| Providers.ConsulProvider.RegisterWorker | app/repositories/providers/consulProvider.go:90-105 | returns the agent's answer; on success the worker's service (its id, name "windlass_worker", TTL `ttl`) is registered; nothing else changes |
| Providers.ConsulProvider.Register | app/repositories/providers/consulProvider.go:75-87 | worker first: its failure is wrapped and changes no registry state. Otherwise the worker's service is added and the projects are registered with `registerProjects`' effects on services, KV, checks and mutex. Their failure is wrapped with its own prefix, a blocked project registration blocks start-up, and the worker ticker (period `ttl/2`) starts iff both succeed |
| Providers.ConsulProvider.RegisterProjects | app/repositories/providers/consulProvider.go:109-160 | the loop over the listed KV pairs does what the recursive specification does: a failed listing is "failed to load KV at path <kvPath>"; the first project whose metadata, IP or Vault lookup fails ends the loop with that error (the IP failure wrapped with the project name); every other project goes through `RegisterProject`, whose error is ignored, and a registration that blocks on the mutex blocks the loop |
| Providers.HeldMutexBlocks | app/repositories/providers/consulProvider.go:271-283 | once the mutex is held, the first later project registration the agent accepts blocks the loop forever, and the mutex stays held |
| Providers.SecondAcceptedRegistrationBlocks | app/repositories/providers/consulProvider.go:115-159 | with two stored projects whose registrations the agent accepts, `registerProjects` never returns, so start-up hangs |
| Providers.ConsulProvider.SaveProjectMeta | app/repositories/providers/consulProvider.go:271-283 | blocks forever if the mutex is already held; otherwise takes it for good, and puts `{id, ip}` under `kvPath()/ID` when the put succeeds, returning the put's answer |
| Providers.ConsulProvider.UpdateProjectTTL | app/repositories/providers/consulProvider.go:214-219 | `projectIDtoCheck[id]` becomes the given check with period `(ttl*5)/2`, overwriting any earlier entry; every other entry and field is unchanged |
| Providers.ConsulProvider.RegisterProject | app/repositories/providers/consulProvider.go:164-191 | a registration failure returns before metadata or renewal and changes nothing; an accepted registration adds the project service (port 443, TTL `ttl*5`, tagged with the worker's KV folder) and leaves the mutex held; a blocked save blocks the call; a metadata failure returns before renewal; success saves the metadata and records the check |
| Providers.ConsulProvider.OnFailedWorkerTTL | app/repositories/providers/consulProvider.go:289-295 | re-registers the worker iff the error ends with "does not have associated TTL)", else returns nil and changes nothing |
| Providers.ConsulProvider.WorkerTick | app/repositories/providers/consulProvider.go:194-210 | an accepted renewal sets the worker check to the secret-derived health; a rejected one changes no check and re-registers under the missing-TTL rule |
| Providers.ConsulProvider.ProjectTick | app/repositories/providers/consulProvider.go:220-236 | an accepted renewal records the check's message and health; a rejected one is discarded, and nothing but the check status can change |
| Providers.ConsulProvider.StoredCheck | app/repositories/providers/consulProvider.go:299 | the check stored for an id, or Go's nil func for an unknown id |
| Providers.ConsulProvider.OnFailedProjectTTL | app/repositories/providers/consulProvider.go:297-302 | if the error does not start with "does not have associated TTL", returns nil and changes nothing; otherwise it has `RegisterProject`'s full outcome with the stored check. That covers the unchanged state on a refused registration, the mutex held and the call blocked if it already was, the put's error, and the metadata and check written only on success |
| Providers.ConsulProvider.GetAndSetSharedSecret | app/repositories/providers/consulProvider.go:239-269 | the bounded retry on `consul.path + "/secret"`; the secret is cached iff an attempt succeeds; the time slept is 3 s per sleep |
| Connections.ConsulProvider.constructor | app/connections/consulProvider.go:29-41 | TTL 10 s, `refreshTTL` 5 s, five secret attempts, no stored error |
| Connections.ConsulProvider.RegisterWorker | app/connections/consulProvider.go:66-79 | returns the agent's answer and registers the worker ("windlass-worker", with the deregister-after field) on success |
| Connections.ConsulProvider.Register | app/connections/consulProvider.go:45-63 | sets `id = "windlass-worker@<address>:<port>"`, the address and the port before registering; a registration error is returned unwrapped before the ticker starts |
| Connections.ConsulProvider.OnFailedTTL | app/connections/consulProvider.go:145-151 | re-registers iff the stored `ttlError` ends with "does not have associated TTL)", else nil |
| Connections.ConsulProvider.WorkerTick | app/connections/consulProvider.go:89-106 | stores this tick's answer in `ttlError` before `onFailedTTL` reads it; health is passing iff the secret is set |
| Connections.ConsulProvider.GetAndSetSharedSecret | app/connections/consulProvider.go:113-143 | the same bounded five-attempt retry as the current revision |
| ConsulConnection.To4 | app/connections/consul/provider.go:114 | an IPv4 form exists iff the IP has 4 bytes or is a 16-byte IPv4-mapped address; it is 4 bytes long |
| ConsulConnection.FirstUsableIsFirst | app/connections/consul/provider.go:112-119 | the chosen address is the first one in list order that is an IP network, not loopback and has an IPv4 form; none is chosen iff no address qualifies |
| ConsulConnection.GetIP | app/connections/consul/provider.go:106-120 | a listing error comes back with ""; otherwise the first usable address in dotted form, or "" with "couldnt find IP" |
| ConsulConnection.SkipsLoopbackAndIPv6 | app/connections/consul/provider.go:112-117 | from 127.0.0.1, ::1, fe80::1 and 10.0.0.5 the worker picks "10.0.0.5" |
| ConsulConnection.Provider.constructor | app/connections/consul/provider.go:27-38 | TTL 10 s and `refreshTTL` 5 s |
| ConsulConnection.Provider.Register | app/connections/consul/provider.go:46-64 | sets id, address and port first; a registration error aborts before the ticker starts |
| ConsulConnection.Provider.WorkerTick | app/connections/consul/provider.go:90-99 | every accepted renewal reports passing with "cool and well"; a failure changes nothing |
| HostService.PingCheck | app/services/containerHostService.go:77-83 | healthy iff the ping succeeds; the message is "Remote Docker daemon reachable", or the ping error's text |
| HostService.LxdProjectsAlwaysPass | app/services/containerHostService.go:76-84 | against the LXD driver, whose ping never fails, every project tick reports passing |
| HostService.Provisioning | app/services/containerHostService.go:44-60 | steps 1 to 4 end without error iff create, start, IP discovery and PEM issuance all succeed |
| HostService.ProvisioningShape | app/services/containerHostService.go:44-60 | steps 1 to 4 run in order and stop just after the first failing one, whose error is returned unchanged |
| HostService.DeliveryShape | app/services/containerHostService.go:62-86 | once the bundle is issued, steps 5 to 9 run in order and stop just after the first failing one, whose error is returned unchanged; with no failure the result is nil, or the call blocks on the registry's mutex |
| HostService.PipelineShape | app/services/containerHostService.go:41-87 | the calls are the fixed nine-step order, cut just after the first failing step; that step's error is returned unchanged; with no failure all nine run and the result is nil (or the call blocks on the registry's mutex), whatever the registry answers |
| HostService.SecondCreateHostHangs | app/services/containerHostService.go:41-87 | after one request whose steps all succeed and whose registration the agent accepts, the mutex is held, and the next such request blocks and is never answered |
| HostService.PipelineRouting | app/services/containerHostService.go:52-76 | the IP the driver reports is the one certified and the one registered; the host receives (ClientCAPEM, ServerKeyPEM, ServerCertPEM); the driver switches to (ClientKeyPEM, ClientCertPEM, ClientCAPEM); the store gets all six blocks under the container name |
| HostService.Driver.UseCerts | app/services/containerHostService.go:70 | the driver's certificates become the given client key, certificate and CA |
| HostService.ContainerHostService.constructor | app/services/containerHostService.go:21-37 | the service holds its four collaborators and has made no calls |
| HostService.ContainerHostService.CreateHost | app/services/containerHostService.go:41-87 | the calls made and the result are the pipeline's; the issuer's IP is set iff step 4 runs; the driver certificates, the store and the registry change only through steps that ran and succeeded; afterwards the registry's mutex is held iff it was before or every step succeeded and the agent accepted the registration; the secret, check statuses, worker ticker and sleeps are unchanged |
| HostService.ContainerHostService.Provision | app/services/containerHostService.go:44-60 | records steps 1 to 4 up to the first failure and returns its error unchanged; the issuer's IP is set iff step 4 runs; on success it hands over the bundle issued for the discovered IP |
| HostService.ContainerHostService.Deliver | app/services/containerHostService.go:62-86 | steps 5 to 9: each one's effect appears only if every earlier step succeeded; the registry's answer is not returned; the mutex is held afterwards iff it was before or the registration was reached and accepted; the secret, check statuses, worker ticker and sleeps are unchanged |
| ProjectsEndpoint.BindOutcome | app/api/v1/projectsEndpoint.go:37-44 | a decode failure is returned as is; otherwise the result is the project's `Bind` verdict |
| ProjectsEndpoint.HostReply | app/api/v1/projectsEndpoint.go:46-61 | nothing is written iff `CreateHost` returns nil; a `host.Error` yields its own status and text; any other error yields 500 with its text; a blocked call never answers |
| ProjectsEndpoint.ProjectEndpoint.constructor | app/api/v1/projectsEndpoint.go:26-29 | the endpoint holds the host service |
| ProjectsEndpoint.ProjectEndpoint.CreateProject | app/api/v1/projectsEndpoint.go:36-62 | a request that does not bind gets 400 with the error text and changes nothing at all; otherwise the reply is `HostReply` of the pipeline run under the project's host name, and `CreateHost`'s effects carry through: the call trace, the issuer's IP, the driver, store and registry changed only by steps that succeeded, the registry's mutex held iff it was or the registration was accepted; the secret, check statuses, worker ticker and sleeps never change |
| ProjectsEndpoint.SecondAcceptedPostHangs | app/api/v1/projectsEndpoint.go:46-61 | of two requests that bind and whose every step succeeds with the registration accepted, the first is answered 200 when the lock was free, and the second is never answered |
| ProjectsEndpoint.MalformedNameIs400 | app/api/v1/projectsEndpoint.go:38-44 | a project name outside the pattern is refused with "project name bad format" |
| ProjectsEndpoint.ExistingContainerIs409 | app/api/v1/projectsEndpoint.go:49-55 | when LXD says the container already exists, the client gets 409 "container host aleady exists", whatever the later steps would have answered |
| ProjectsEndpoint.CombinedPushErrorIs500 | app/api/v1/projectsEndpoint.go:56-60 | a combined certificate-push error is not a `host.Error`, so it yields 500 |

## Left out

- Cryptography and encodings are left out: ECDSA key generation, x509 signing, PEM bytes, base64 and JSON. Keys, certificates and PEM blocks are symbolic terms, and each library call's success or failure is a drawn value.
- Goroutines and tickers are left out. Each ticker loop is modelled as one method call per tick, and the ticker's period as a field. Sleeps are a ghost counter of nanoseconds. Each mutex is a boolean.
- Consul, Vault and LXD client calls, `net.InterfaceAddrs` and `time.Now` are not modelled. Their answers are parameters of the operations that receive them.
- The context deadline on IP discovery is modelled only as a finite, non-empty sequence of poll answers, one per attempt the deadline leaves room for. The 5 ms constant backoff is not modelled.
- `Providers.ConsulProvider.RegisterProjects`: the KV listing is the store's answer, passed as a parameter. It is not derived from the `kv` field. Each pair's bootstrap is also a parameter. That bootstrap is the JSON decode, a fresh LXD driver with a 1 s deadline, `NewVaultProvider`, the Vault read, the base64 decode and `UseCerts` on that driver. Only its first error, or the IP, is kept. The panic of `.(string)` on a Vault value that is not a string is not modelled.
- `certificateTemplate` in app/services/tlsCertService.go is never called and is not modelled.
- `Project.HostName` is not part of this model. `ProjectsEndpoint.ProjectEndpoint.CreateProject` takes it as a function parameter.
- `Duration.String()` in the TTL fields is not modelled. TTLs are kept as nanosecond counts.
- `HostService.Driver.UseCerts`: the pipeline's driver is the abstract `ContainerHostRepository` interface. Its answers come from the environment, and its ping answer is fixed per driver. `LxdContainerHost` keeps the LXD file's own five-block `PushAuthCerts`. That file declares no `UseCerts` or `RestartNGINX`, and its `PushAuthCerts` takes five blocks where the interface takes three.
- `Project.Bind`: Go's `len` counts bytes and the model counts characters. The two agree on every string that passes the format check, which runs first, so the verdict is unaffected.
- `Connections.ConsulProvider.OnFailedTTL` requires a stored error. Go would panic on a nil `ttlError`, and the only caller passes a non-nil one.
- `VaultTlsStorage.ReadCerts` requires the record to hold the four leaf fields, because Go's type assertions panic otherwise.
- The mutex blocked in `SaveProjectMeta` is modelled as a terminal `Blocked` outcome. Go scheduling and other goroutines are not modelled.
- The 20 s request deadline in app/api/v1/projectsEndpoint.go:32 is not modelled, and neither is cancellation through the request context.
- `VaultTlsStorage.PushThenGet` assumes the store gives back the written blocks with their type. In the source, `GetAuthCerts` asserts `.([]byte)` (app/repositories/tlsStorage/vaultTlsStorageRepo.go:34-37). `registerProjects`, though, asserts `.(string)` and base64-decodes (app/repositories/providers/consulProvider.go:138-145). Vault's JSON API returns strings, so against a real Vault the `[]byte` assertions would panic. The model keeps one value type and does not capture that conflict.
- `LxdContainerHost.GetContainerHostIP` returns the IP as it stands after the retry loop. In `return ip, backoff.Retry(f, retry)` (app/repositories/containerHost/lxdContainerHostRepo.go:119), Go leaves the evaluation order of `ip` against the call unspecified. The model assumes `ip` is read after the call, which the gc compiler does in practice.
- `TlsCertService.GenerateServerParts` keeps the server IP as the raw string. `net.ParseIP` (app/services/tlsCertService.go:106) is not modelled. For a string that does not parse, Go puts a nil IP into the certificate, whereas `IsServerLeafFor` still names the string.
