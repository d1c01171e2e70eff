/** What the three Consul provider revisions share: the shapes of the Consul
    agent's registrations, TTL checks and KV entries, the TTL arithmetic on
    Go durations (int64 nanoseconds), and the shared-secret bootstrap retry
    (GetAndSetSharedSecret, identical in app/repositories/providers/consulProvider.go
    and app/connections/consulProvider.go). */
module ConsulAgent {
  import opened Errors
  import opened Strings

  /** time.Second in nanoseconds. */
  const Second := 1_000_000_000
  /** Every revision's worker TTL: time.Second * 10. */
  const DefaultTTL := 10 * Second
  /** secretGetRetry. */
  const SecretGetRetry := 5
  /** The older revisions' refreshTTL field: time.Second * 5. */
  const RefreshTTL := 5 * Second
  /** The sleep after every failed secret attempt: time.Second * 3. */
  const SecretRetrySleep := 3 * Second

  /** The worker's service id, built the same way by every revision from a
      host name or address and the HTTP port. */
  function WorkerId(host: string, port: int): string {
    "windlass-worker@" + host + ":" + Itoa(port)
  }

  datatype Health = Passing | Critical

  /** consul.AgentServiceRegistration with its TTL check; `ttl` in nanoseconds,
      `deregisterAfter` the DeregisterCriticalServiceAfter duration if set. */
  datatype Service = Service(id: string, name: string, tags: seq<string>, address: string, port: int,
                             ttl: int, deregisterAfter: Option<int>)

  /** The last UpdateTTL the agent accepted for a check: output and status. */
  datatype CheckStatus = CheckStatus(output: string, health: Health)

  /** The check id UpdateTTL names for a service. */
  function CheckId(serviceId: string): (r: string)
    ensures HasPrefix(r, "service:") && TrimPrefix(r, "service:") == serviceId
  {
    PrefixOfConcat("service:", serviceId);
    "service:" + serviceId
  }

  /** The worker renews its TTL every ttl/2 (Go integer division). */
  function WorkerRenewal(ttl: int): int {
    ttl / 2
  }

  /** A project's TTL is five worker TTLs ... */
  function ProjectTTL(ttl: int): int {
    ttl * 5
  }

  /** ... and it renews every (ttl*5)/2. */
  function ProjectRenewal(ttl: int): int {
    (ttl * 5) / 2
  }

  /** With the 10s TTL the worker renews every 5s and a project (TTL 50s)
      every 25s. */
  lemma DefaultTiming()
    ensures WorkerRenewal(DefaultTTL) == 5 * Second
    ensures ProjectTTL(DefaultTTL) == 50 * Second
    ensures ProjectRenewal(DefaultTTL) == 25 * Second
  {
  }

  /** The older revisions' configured refreshTTL is the interval their worker
      ticker really uses, ttl/2. */
  lemma RefreshIsHalfTTL()
    ensures WorkerRenewal(DefaultTTL) == RefreshTTL
  {
  }

  /** For every TTL of at least two nanoseconds, each renewal comes strictly
      before its TTL runs out and strictly after zero. */
  lemma RenewalsWithinTTL(ttl: int)
    requires ttl >= 2
    ensures 0 < WorkerRenewal(ttl) < ttl
    ensures 0 < ProjectRenewal(ttl) < ProjectTTL(ttl)
  {
  }

  // ---------------------------------------------------------------------------
  // The shared-secret bootstrap.

  /** What Consul's KV Get answers for the secret path. */
  datatype KvReply = Unreachable(err: Error) | NotSet | Value(v: string)

  /** The KV path of the shared secret: consul.path + "/secret". */
  function SecretPath(consulPath: string): string {
    consulPath + "/secret"
  }

  /** One attempt (the closure fn): the secret, or why there is none. */
  function SecretAttempt(path: string, reply: KvReply): (r: Result<string>)
    ensures r.Ok? <==> reply.Value?
    ensures reply.Value? ==> r.value == reply.v
    ensures reply.Unreachable? ==> r.error == reply.err
    ensures reply.NotSet? ==> r.error == Message("key " + path + " not set")
  {
    match reply
    case Unreachable(e) => Fail(e)
    case NotSet => Fail(Message("key " + path + " not set"))
    case Value(v) => Ok(v)
  }

  /** The end of the retry loop: its error, the attempts made, the sleeps taken
      and the secret cached, if one was. */
  datatype Bootstrap = Bootstrap(err: Option<Error>, attempts: nat, sleeps: nat, secret: Option<string>)

  /** The loop run with `count` attempts left, `k` attempts made so far and
      `last` the error the Go variable err holds; attempt j gets reply(j). */
  function SecretRetry(path: string, reply: nat -> KvReply, count: int, k: nat, last: Option<Error>): Bootstrap
    decreases count
  {
    if count <= 0 then Bootstrap(last, k, k, None)
    else
      match SecretAttempt(path, reply(k))
      case Ok(v) => Bootstrap(None, k + 1, k, Some(v))
      case Fail(e) => SecretRetry(path, reply, count - 1, k + 1, Some(e))
  }

  /** GetAndSetSharedSecret's loop: up to `retries` attempts, a sleep after
      every failure including the last, the last error returned. */
  method RetrySecret(path: string, reply: nat -> KvReply, retries: int) returns (b: Bootstrap)
    ensures b == SecretRetry(path, reply, retries, 0, None)
  {
    var count := retries;
    var err: Option<Error> := None;
    var k: nat := 0;
    while count > 0
      invariant SecretRetry(path, reply, retries, 0, None) == SecretRetry(path, reply, count, k, err)
      decreases count
    {
      var attempt := SecretAttempt(path, reply(k));
      if attempt.Ok? {
        return Bootstrap(None, k + 1, k, Some(attempt.value));
      }
      err := Some(attempt.error);
      k := k + 1;
      count := count - 1;
    }
    return Bootstrap(err, k, k, None);
  }

  /** The loop never makes more than `count` further attempts, and sleeps
      after every attempt but a successful one. */
  lemma {:induction false} SecretRetryBounded(path: string, reply: nat -> KvReply, count: int, k: nat, last: Option<Error>)
    ensures var b := SecretRetry(path, reply, count, k, last);
      && k <= b.attempts <= k + (if count < 0 then 0 else count)
      && b.sleeps == (if b.secret.Some? then b.attempts - 1 else b.attempts)
    decreases count
  {
    if count > 0 && !reply(k).Value? {
      SecretRetryBounded(path, reply, count - 1, k + 1, Some(SecretAttempt(path, reply(k)).error));
    }
  }

  /** If attempt j is the first of the remaining `count` that finds the secret,
      the loop stops there: j+1 attempts, j sleeps, that value cached, nil
      returned. */
  lemma {:induction false} SecretRetryFirstSuccess(path: string, reply: nat -> KvReply, count: int, k: nat, last: Option<Error>, j: nat)
    requires k <= j < k + count
    requires reply(j).Value?
    requires forall i :: k <= i < j ==> !reply(i).Value?
    ensures SecretRetry(path, reply, count, k, last) == Bootstrap(None, j + 1, j, Some(reply(j).v))
    decreases count
  {
    if j != k {
      SecretRetryFirstSuccess(path, reply, count - 1, k + 1, Some(SecretAttempt(path, reply(k)).error), j);
    }
  }

  /** If none of the remaining `count` attempts finds the secret, the loop
      makes them all, sleeps after each, caches nothing and returns the last
      attempt's error. */
  lemma {:induction false} SecretRetryAllFail(path: string, reply: nat -> KvReply, count: int, k: nat, last: Option<Error>)
    requires count > 0
    requires forall i :: k <= i < k + count ==> !reply(i).Value?
    ensures SecretRetry(path, reply, count, k, last) ==
      Bootstrap(Some(SecretAttempt(path, reply(k + count - 1)).error), k + count, k + count, None)
    decreases count
  {
    if count > 1 {
      SecretRetryAllFail(path, reply, count - 1, k + 1, Some(SecretAttempt(path, reply(k)).error));
    }
  }

  /** With the fixed five attempts, a secret that is never set gives up after
      exactly five attempts and five sleeps, reporting the missing key. */
  lemma SecretNeverSet(path: string, reply: nat -> KvReply)
    requires forall i :: 0 <= i < SecretGetRetry ==> reply(i) == NotSet
    ensures SecretRetry(path, reply, SecretGetRetry, 0, None) ==
      Bootstrap(Some(Message("key " + path + " not set")), 5, 5, None)
  {
    SecretRetryAllFail(path, reply, SecretGetRetry, 0, None);
  }
}
