/** The LXD container-host driver's own logic
    (app/repositories/containerHost/lxdContainerHostRepo.go): error mapping,
    the create/start error flow, IP discovery under a bounded retry, the
    certificate push, and Ping. Every LXD call's answer is a parameter. */
module LxdContainerHost {
  import opened Errors
  import opened Strings
  import opened TlsCertService

  const AlreadyExistsSuffix := "This container already exists"
  const NoIPv4Message := "failed to find ipv4 address for container"
  const Eth0 := "eth0"
  const InetFamily := "inet"

  /** The file arguments PushAuthCerts passes for every block. The mode is the
      decimal literal 400 as the source writes it. */
  const NginxPath := "/nginx"
  const NginxUid := 33
  const NginxGid := 33
  const CertFileMode := 400

  /** Ping: the LXD driver never reports the daemon unreachable. */
  function Ping(): (r: Option<Error>)
    ensures r.None?
  {
    None
  }

  /** parseError: a failure whose text ends with LXD's "already exists"
      message becomes ErrHostExists; nil and every other error pass unchanged. */
  function ParseError(err: Option<Error>): (r: Option<Error>)
    ensures r.None? <==> err.None?
    ensures err.Some? && HasSuffix(Text(err.value), AlreadyExistsSuffix) ==> r == Some(ErrHostExists)
    ensures err.Some? && !HasSuffix(Text(err.value), AlreadyExistsSuffix) ==> r == err
  {
    if err.None? then None
    else if HasSuffix(Text(err.value), AlreadyExistsSuffix) then Some(ErrHostExists)
    else err
  }

  /** Mapping twice changes nothing: ErrHostExists's own text does not end with
      LXD's message. */
  lemma ParseErrorIdempotent(err: Option<Error>)
    ensures ParseError(ParseError(err)) == ParseError(err)
  {
    if err.Some? && HasSuffix(Text(err.value), AlreadyExistsSuffix) {
      assert |Text(ErrHostExists)| < |AlreadyExistsSuffix|;
    }
  }

  /** CreateContainerHost: the create call's error, or else the operation
      wait's error, each passed through parseError. */
  function CreateContainerHost(createErr: Option<Error>, waitErr: Option<Error>): (r: Option<Error>)
    ensures r.None? <==> createErr.None? && waitErr.None?
    ensures createErr.Some? ==> r == ParseError(createErr)
    ensures createErr.None? ==> r == ParseError(waitErr)
  {
    if createErr.Some? then ParseError(createErr) else ParseError(waitErr)
  }

  /** StartContainerHost: the state update's error, or else the wait's error,
      both unmapped. */
  function StartContainerHost(updateErr: Option<Error>, waitErr: Option<Error>): (r: Option<Error>)
    ensures r.None? <==> updateErr.None? && waitErr.None?
    ensures updateErr.Some? ==> r == updateErr
    ensures updateErr.None? ==> r == waitErr
  {
    if updateErr.Some? then updateErr else waitErr
  }

  /** Only creation reports a conflict: the same LXD text from a start is not
      turned into ErrHostExists. */
  lemma ConflictOnlyFromCreate(e: Error)
    requires e.Message? && HasSuffix(Text(e), AlreadyExistsSuffix)
    ensures CreateContainerHost(Some(e), None) == Some(ErrHostExists)
    ensures CreateContainerHost(None, Some(e)) == Some(ErrHostExists)
    ensures StartContainerHost(Some(e), None) == Some(e) != Some(ErrHostExists)
  {
  }

  // ---------------------------------------------------------------------------
  // IP discovery.

  datatype Address = Address(family: string, address: string)
  /** The part of api.ContainerState read here: addresses per network interface. */
  datatype ContainerState = ContainerState(network: map<string, seq<Address>>)

  /** The addresses listed for eth0; a missing interface lists none. */
  function Eth0Addresses(st: ContainerState): seq<Address> {
    if Eth0 in st.network then st.network[Eth0] else []
  }

  /** The first "inet" address in list order. */
  function FirstInet(addrs: seq<Address>): Option<string> {
    if addrs == [] then None
    else if addrs[0].family == InetFamily then Some(addrs[0].address)
    else FirstInet(addrs[1..])
  }

  /** FirstInet picks the address at the first index whose family is "inet",
      and finds nothing exactly when no entry is "inet". */
  lemma {:induction false} FirstInetIsFirst(addrs: seq<Address>)
    ensures FirstInet(addrs).None? <==> forall i :: 0 <= i < |addrs| ==> addrs[i].family != InetFamily
    ensures FirstInet(addrs).Some? ==> exists i ::
      && 0 <= i < |addrs| && addrs[i].family == InetFamily
      && FirstInet(addrs).value == addrs[i].address
      && forall j :: 0 <= j < i ==> addrs[j].family != InetFamily
  {
    if addrs != [] && addrs[0].family != InetFamily {
      FirstInetIsFirst(addrs[1..]);
      if FirstInet(addrs).Some? {
        var i :| 0 <= i < |addrs[1..]| && addrs[1..][i].family == InetFamily
          && FirstInet(addrs[1..]).value == addrs[1..][i].address
          && forall j :: 0 <= j < i ==> addrs[1..][j].family != InetFamily;
        assert forall j :: 0 <= j < i + 1 ==> addrs[j].family != InetFamily by {
          forall j | 0 < j < i + 1 ensures addrs[j].family != InetFamily {
            assert addrs[j] == addrs[1..][j - 1];
          }
        }
      } else {
        forall i | 0 < i < |addrs| ensures addrs[i].family != InetFamily {
          assert addrs[i] == addrs[1..][i - 1];
        }
      }
    }
  }

  /** The scan inside one attempt: walk eth0's list, stop at the first "inet". */
  method FindInet(addrs: seq<Address>) returns (ip: Option<string>)
    ensures ip == FirstInet(addrs)
  {
    var i := 0;
    while i < |addrs|
      invariant 0 <= i <= |addrs|
      invariant FirstInet(addrs) == FirstInet(addrs[i..])
    {
      assert addrs[i..][1..] == addrs[i + 1..];
      if addrs[i].family == InetFamily {
        return Some(addrs[i].address);
      }
      i := i + 1;
    }
    return None;
  }

  /** How one attempt ends: an address, a failure worth retrying, or a
      permanent failure (backoff.Permanent) that ends the retry. */
  datatype Attempt = Found(ip: string) | Retryable(err: Error) | Permanent(err: Error)

  /** One attempt, given what GetContainerState answered. */
  function AttemptSpec(poll: Result<ContainerState>): Attempt {
    match poll
    case Fail(e) => Permanent(e)
    case Ok(st) =>
      match FirstInet(Eth0Addresses(st))
      case Some(ip) => Found(ip)
      case None => Retryable(Message(NoIPv4Message))
  }

  method AttemptIP(poll: Result<ContainerState>) returns (a: Attempt)
    ensures a == AttemptSpec(poll)
  {
    if poll.Fail? {
      return Permanent(poll.error);
    }
    var found := FindInet(Eth0Addresses(poll.value));
    if found.Some? {
      a := Found(found.value);
    } else {
      a := Retryable(Message(NoIPv4Message));
    }
  }

  /** The retry as a function of the answers the attempts get. `polls` holds one
      answer per attempt the context's deadline leaves room for; the first
      attempt always runs. When the deadline ends the retry, the last attempt's
      error is returned. */
  function RetrySpec(polls: seq<Result<ContainerState>>): (r: (string, Option<Error>))
    requires |polls| > 0
    decreases |polls|
  {
    match AttemptSpec(polls[0])
    case Found(ip) => (ip, None)
    case Permanent(e) => ("", Some(e))
    case Retryable(e) => if |polls| == 1 then ("", Some(e)) else RetrySpec(polls[1..])
  }

  /** GetContainerHostIP: attempts in order until one finds an address, one
      fails permanently, or the deadline leaves no more attempts. */
  method GetContainerHostIP(polls: seq<Result<ContainerState>>) returns (ip: string, err: Option<Error>)
    requires |polls| > 0
    ensures (ip, err) == RetrySpec(polls)
  {
    var i := 0;
    while true
      invariant 0 <= i < |polls|
      invariant RetrySpec(polls) == RetrySpec(polls[i..])
      decreases |polls| - i
    {
      var a := AttemptIP(polls[i]);
      match a {
        case Found(addr) =>
          return addr, None;
        case Permanent(e) =>
          return "", Some(e);
        case Retryable(e) =>
          if i + 1 == |polls| {
            return "", Some(e);
          }
          assert polls[i..][1..] == polls[i + 1..];
      }
      i := i + 1;
    }
  }

  /** The index of the first attempt that does not ask for a retry, or |polls|. */
  function FirstDecisive(polls: seq<Result<ContainerState>>): (k: nat)
    ensures k <= |polls|
    ensures forall j :: 0 <= j < k ==> AttemptSpec(polls[j]).Retryable?
    ensures k < |polls| ==> !AttemptSpec(polls[k]).Retryable?
  {
    if polls == [] then 0
    else if !AttemptSpec(polls[0]).Retryable? then 0
    else
      var k := FirstDecisive(polls[1..]);
      assert forall j :: 0 < j < k + 1 ==> polls[j] == polls[1..][j - 1];
      k + 1
  }

  /** What discovery returns is decided by the first attempt that does not ask
      for a retry: its address, or its permanent error with later answers never
      read; when every attempt asks for a retry, "" and the no-IPv4 error. */
  lemma {:induction false} RetryDecidedByFirstDecisive(polls: seq<Result<ContainerState>>)
    requires |polls| > 0
    ensures var k := FirstDecisive(polls);
      && (k < |polls| && AttemptSpec(polls[k]).Found? ==> RetrySpec(polls) == (AttemptSpec(polls[k]).ip, None))
      && (k < |polls| && AttemptSpec(polls[k]).Permanent? ==> RetrySpec(polls) == ("", Some(AttemptSpec(polls[k]).err)))
      && (k == |polls| ==> RetrySpec(polls) == ("", Some(Message(NoIPv4Message))))
    decreases |polls|
  {
    if AttemptSpec(polls[0]).Retryable? && |polls| > 1 {
      RetryDecidedByFirstDecisive(polls[1..]);
      assert FirstDecisive(polls) == FirstDecisive(polls[1..]) + 1;
      var k := FirstDecisive(polls[1..]);
      if k < |polls[1..]| {
        assert polls[1..][k] == polls[k + 1];
      }
    }
  }

  // ---------------------------------------------------------------------------
  // Certificate push.

  datatype FileWrite = FileWrite(container: string, path: string, uid: int, gid: int, mode: int, content: Pem)

  /** Container files after the writes `ws` to `path`, each a content and
      LXD's answer; a write changes the file only when its answer is nil. */
  function AfterWrites(files: map<(string, string), Pem>, name: string, path: string,
                       ws: seq<(Pem, Option<Error>)>): map<(string, string), Pem>
    decreases |ws|
  {
    if ws == [] then files
    else
      var before := AfterWrites(files, name, path, ws[..|ws| - 1]);
      var last := ws[|ws| - 1];
      if last.1.None? then before[(name, path) := last.0] else before
  }

  lemma AfterOneMore(files: map<(string, string), Pem>, name: string, path: string,
                     ws: seq<(Pem, Option<Error>)>, w: (Pem, Option<Error>))
    ensures AfterWrites(files, name, path, ws + [w]) ==
      var before := AfterWrites(files, name, path, ws);
      if w.1.None? then before[(name, path) := w.0] else before
  {
    assert (ws + [w])[..|ws|] == ws;
  }

  /** The driver's view of the LXD daemon's container files. */
  class LxdHost {
    /** File content by (container, path). */
    var files: map<(string, string), Pem>
    /** Every CreateContainerFile call, in order. */
    var writes: seq<FileWrite>

    constructor ()
      ensures files == map[] && writes == []
    {
      files := map[];
      writes := [];
    }

    /** CreateContainerFile; `outcome` is LXD's answer. */
    method CreateContainerFile(name: string, path: string, content: Pem, outcome: Option<Error>) returns (err: Option<Error>)
      modifies this
      ensures writes == old(writes) + [FileWrite(name, path, NginxUid, NginxGid, CertFileMode, content)]
      ensures files == if outcome.None? then old(files)[(name, path) := content] else old(files)
      ensures err == outcome
    {
      writes := writes + [FileWrite(name, path, NginxUid, NginxGid, CertFileMode, content)];
      if outcome.None? {
        files := files[(name, path) := content];
      }
      err := outcome;
    }

    /** PushAuthCerts: five writes, all issued whatever the earlier ones
        answered, combined into one error; write k gets answer outcome(k). */
    method PushAuthCerts(name: string, caPEM: Pem, serverKeyPEM: Pem, serverCertPEM: Pem,
                         clientKeyPEM: Pem, clientCertPEM: Pem, outcome: nat -> Option<Error>) returns (err: Option<Error>)
      modifies this
      ensures writes == old(writes) + [
        FileWrite(name, NginxPath, NginxUid, NginxGid, CertFileMode, caPEM),
        FileWrite(name, NginxPath, NginxUid, NginxGid, CertFileMode, serverKeyPEM),
        FileWrite(name, NginxPath, NginxUid, NginxGid, CertFileMode, serverCertPEM),
        FileWrite(name, NginxPath, NginxUid, NginxGid, CertFileMode, clientKeyPEM),
        FileWrite(name, NginxPath, NginxUid, NginxGid, CertFileMode, clientCertPEM)]
      ensures files == AfterWrites(old(files), name, NginxPath,
        [(caPEM, outcome(0)), (serverKeyPEM, outcome(1)), (serverCertPEM, outcome(2)),
         (clientKeyPEM, outcome(3)), (clientCertPEM, outcome(4))])
      ensures err == Combine([outcome(0), outcome(1), outcome(2), outcome(3), outcome(4)])
    {
      ghost var files0 := files;
      ghost var ws: seq<(Pem, Option<Error>)> := [];
      var e0 := WriteCert(name, caPEM, outcome(0), files0, ws);
      ws := ws + [(caPEM, outcome(0))];
      var e1 := WriteCert(name, serverKeyPEM, outcome(1), files0, ws);
      ws := ws + [(serverKeyPEM, outcome(1))];
      var e2 := WriteCert(name, serverCertPEM, outcome(2), files0, ws);
      ws := ws + [(serverCertPEM, outcome(2))];
      var e3 := WriteCert(name, clientKeyPEM, outcome(3), files0, ws);
      ws := ws + [(clientKeyPEM, outcome(3))];
      var e4 := WriteCert(name, clientCertPEM, outcome(4), files0, ws);
      ws := ws + [(clientCertPEM, outcome(4))];
      assert ws == [(caPEM, outcome(0)), (serverKeyPEM, outcome(1)), (serverCertPEM, outcome(2)),
                    (clientKeyPEM, outcome(3)), (clientCertPEM, outcome(4))];
      err := Combine([e0, e1, e2, e3, e4]);
    }

    /** One of PushAuthCerts' writes to the nginx path, after the writes
        `ws`: the files become those writes followed by this one. */
    method WriteCert(name: string, content: Pem, outcome: Option<Error>,
                     ghost files0: map<(string, string), Pem>, ghost ws: seq<(Pem, Option<Error>)>)
      returns (err: Option<Error>)
      requires files == AfterWrites(files0, name, NginxPath, ws)
      modifies this
      ensures writes == old(writes) + [FileWrite(name, NginxPath, NginxUid, NginxGid, CertFileMode, content)]
      ensures files == AfterWrites(files0, name, NginxPath, ws + [(content, outcome)])
      ensures err == outcome
    {
      err := CreateContainerFile(name, NginxPath, content, outcome);
      AfterOneMore(files0, name, NginxPath, ws, (content, outcome));
    }
  }

  /** Writes that LXD refuses all leave the files as they were. */
  lemma {:induction false} RefusedWritesChangeNothing(files: map<(string, string), Pem>, name: string, path: string,
                                                      ws: seq<(Pem, Option<Error>)>)
    requires forall i :: 0 <= i < |ws| ==> ws[i].1.Some?
    ensures AfterWrites(files, name, path, ws) == files
    decreases |ws|
  {
    if ws != [] {
      RefusedWritesChangeNothing(files, name, path, ws[..|ws| - 1]);
    }
  }

  /** Every block goes to the same path, so each accepted write replaces the
      previous one: the file holds the content of the last write LXD
      accepted. */
  lemma {:induction false} LastAcceptedWriteSurvives(files: map<(string, string), Pem>, name: string, path: string,
                                                     ws: seq<(Pem, Option<Error>)>, j: nat)
    requires j < |ws| && ws[j].1.None?
    requires forall i :: j < i < |ws| ==> ws[i].1.Some?
    ensures var after := AfterWrites(files, name, path, ws);
      (name, path) in after && after[(name, path)] == ws[j].0
    decreases |ws|
  {
    if j < |ws| - 1 {
      var init := ws[..|ws| - 1];
      assert init[j] == ws[j];
      assert forall i :: j < i < |init| ==> init[i] == ws[i];
      LastAcceptedWriteSurvives(files, name, path, init, j);
    }
  }

  /** The writes touch no other file. */
  lemma {:induction false} OtherFilesUntouched(files: map<(string, string), Pem>, name: string, path: string,
                                               ws: seq<(Pem, Option<Error>)>, key: (string, string))
    requires key != (name, path)
    ensures key in AfterWrites(files, name, path, ws) <==> key in files
    ensures key in files ==> AfterWrites(files, name, path, ws)[key] == files[key]
    decreases |ws|
  {
    if ws != [] {
      OtherFilesUntouched(files, name, path, ws[..|ws| - 1], key);
    }
  }
}
