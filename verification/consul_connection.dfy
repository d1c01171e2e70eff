/** The oldest registry revision (app/connections/consul/provider.go): Register
    ordering, a worker tick that always reports passing, and getIP, the
    choice of the worker's own address among the host's interface addresses. */
module ConsulConnection {
  import opened Errors
  import opened Strings
  import opened ConsulAgent

  const WorkerServiceName := "windlass-worker"
  const WorkerCheckOutput := "cool and well"
  const NoIPMessage := "couldnt find IP"

  type Byte = b: int | 0 <= b < 256

  /** A net.Addr as listed by net.InterfaceAddrs: an IP network with its IP
      (4 or 16 bytes, or any other length Go would hold), or another kind. */
  datatype InterfaceAddr = IPNet(ip: seq<Byte>) | OtherAddr

  /** net.IP.To4: a 4-byte IP itself, the last four bytes of a 16-byte
      IPv4-mapped IP (ten zero bytes, then 0xff 0xff), else nil. */
  function To4(ip: seq<Byte>): (r: Option<seq<Byte>>)
    ensures r.Some? ==> |r.value| == 4
    ensures r.Some? <==> |ip| == 4 || (|ip| == 16 && (forall i :: 0 <= i < 10 ==> ip[i] == 0) && ip[10] == 255 && ip[11] == 255)
  {
    if |ip| == 4 then Some(ip)
    else if |ip| == 16 && (forall i :: 0 <= i < 10 ==> ip[i] == 0) && ip[10] == 0xff && ip[11] == 0xff then Some(ip[12..])
    else None
  }

  /** ::1 */
  const IPv6Loopback: seq<Byte> := [0, 0, 0, 0, 0, 0, 0, 0, 0, 0, 0, 0, 0, 0, 0, 1]

  /** net.IP.IsLoopback: 127.x.x.x in IPv4 form, else equal to ::1. */
  predicate IsLoopback(ip: seq<Byte>) {
    match To4(ip)
    case Some(v4) => v4[0] == 127
    case None => ip == IPv6Loopback
  }

  /** The address getIP accepts: an IP network, not loopback, with an IPv4 form. */
  predicate Usable(a: InterfaceAddr) {
    a.IPNet? && !IsLoopback(a.ip) && To4(a.ip).Some?
  }

  /** net.IP.String for an IP with an IPv4 form: dotted decimal. */
  function DottedQuad(v4: seq<Byte>): string
    requires |v4| == 4
  {
    Itoa(v4[0]) + "." + Itoa(v4[1]) + "." + Itoa(v4[2]) + "." + Itoa(v4[3])
  }

  /** The string getIP returns for a usable address. */
  function AddrString(a: InterfaceAddr): string
    requires Usable(a)
  {
    DottedQuad(To4(a.ip).value)
  }

  /** The first usable address, in list order. */
  function FirstUsable(addrs: seq<InterfaceAddr>): Option<string> {
    if addrs == [] then None
    else if Usable(addrs[0]) then Some(AddrString(addrs[0]))
    else FirstUsable(addrs[1..])
  }

  /** FirstUsable picks the usable address with no usable one before it, and
      finds nothing exactly when no address is usable. */
  lemma {:induction false} FirstUsableIsFirst(addrs: seq<InterfaceAddr>)
    ensures FirstUsable(addrs).None? <==> forall i :: 0 <= i < |addrs| ==> !Usable(addrs[i])
    ensures FirstUsable(addrs).Some? ==> exists i ::
      && 0 <= i < |addrs| && Usable(addrs[i])
      && FirstUsable(addrs).value == AddrString(addrs[i])
      && forall j :: 0 <= j < i ==> !Usable(addrs[j])
  {
    if addrs != [] && !Usable(addrs[0]) {
      var rest := addrs[1..];
      FirstUsableIsFirst(rest);
      if FirstUsable(rest).Some? {
        var i :| 0 <= i < |rest| && Usable(rest[i]) && FirstUsable(rest).value == AddrString(rest[i])
          && forall j :: 0 <= j < i ==> !Usable(rest[j]);
        assert addrs[i + 1] == rest[i];
        assert forall j :: 0 <= j < i + 1 ==> !Usable(addrs[j]) by {
          forall j | 0 < j < i + 1 ensures !Usable(addrs[j]) {
            assert addrs[j] == rest[j - 1];
          }
        }
      } else {
        forall i | 0 < i < |addrs| ensures !Usable(addrs[i]) {
          assert addrs[i] == rest[i - 1];
        }
      }
    }
  }

  /** getIP, given what net.InterfaceAddrs answered. */
  method GetIP(listing: Result<seq<InterfaceAddr>>) returns (ip: string, err: Option<Error>)
    ensures listing.Fail? ==> ip == "" && err == Some(listing.error)
    ensures listing.Ok? && FirstUsable(listing.value).Some? ==> ip == FirstUsable(listing.value).value && err == None
    ensures listing.Ok? && FirstUsable(listing.value).None? ==> ip == "" && err == Some(Message(NoIPMessage))
  {
    if listing.Fail? {
      return "", Some(listing.error);
    }
    var addrs := listing.value;
    var i := 0;
    while i < |addrs|
      invariant 0 <= i <= |addrs|
      invariant FirstUsable(addrs) == FirstUsable(addrs[i..])
    {
      assert addrs[i..][1..] == addrs[i + 1..];
      var a := addrs[i];
      if a.IPNet? && !IsLoopback(a.ip) {
        var v4 := To4(a.ip);
        if v4.Some? {
          return DottedQuad(v4.value), None;
        }
      }
      i := i + 1;
    }
    return "", Some(Message(NoIPMessage));
  }

  /** Loopback addresses in either family, and IPv6-only addresses, are passed
      over: on a host listing 127.0.0.1, ::1, an IPv6 address and then
      10.0.0.5, the worker picks 10.0.0.5. */
  lemma SkipsLoopbackAndIPv6()
    ensures FirstUsable([IPNet([127, 0, 0, 1]), IPNet(IPv6Loopback),
                         IPNet([0xfe, 0x80, 0, 0, 0, 0, 0, 0, 0, 0, 0, 0, 0, 0, 0, 1]),
                         IPNet([10, 0, 0, 5])]) == Some("10.0.0.5")
  {
    var addrs: seq<InterfaceAddr> := [IPNet([127, 0, 0, 1]), IPNet(IPv6Loopback),
                  IPNet([0xfe, 0x80, 0, 0, 0, 0, 0, 0, 0, 0, 0, 0, 0, 0, 0, 1]),
                  IPNet([10, 0, 0, 5])];
    assert !Usable(addrs[0]);
    assert To4(IPv6Loopback).None? by { assert IPv6Loopback[10] != 255; }
    assert !Usable(addrs[1]);
    assert To4(addrs[2].ip).None? by { assert addrs[2].ip[0] != 0; }
    assert !Usable(addrs[2]);
    assert Usable(addrs[3]);
    var r1 := addrs[1..];
    var r2 := r1[1..];
    var r3 := r2[1..];
    assert r1[0] == addrs[1] && r2[0] == addrs[2] && r3 == [addrs[3]];
    assert FirstUsable(addrs) == FirstUsable(r1) == FirstUsable(r2) == FirstUsable(r3);
    assert Itoa(10) == "10" && Itoa(0) == "0" && Itoa(5) == "5";
    assert DottedQuad([10, 0, 0, 5]) == "10.0.0.5";
  }

  class Provider {
    var id: string
    var address: string
    var port: int
    const ttl: int
    const refreshTTL: int
    const deregisterCritical: int
    var services: map<string, Service>
    var checks: map<string, CheckStatus>
    var workerTicker: Option<int>

    /** NewProvider. */
    constructor (services: map<string, Service>)
      ensures ttl == DefaultTTL && refreshTTL == RefreshTTL && deregisterCritical == 0
      ensures id == "" && address == "" && port == 0
      ensures this.services == services && checks == map[] && workerTicker == None
    {
      id := "";
      address := "";
      port := 0;
      ttl := DefaultTTL;
      refreshTTL := RefreshTTL;
      deregisterCritical := 0;
      this.services := services;
      checks := map[];
      workerTicker := None;
    }

    function WorkerService(): Service
      reads this
    {
      Service(id, WorkerServiceName, [], address, port, ttl, Some(deregisterCritical))
    }

    /** Register: set id, port and address, register the worker (its error
        returned as is), then start the worker ticker; registerProjects and
        updateProjectTTL have empty bodies here. */
    method Register(httpAddress: string, httpPort: int, regErr: Option<Error>) returns (err: Option<Error>)
      modifies this
      ensures id == WorkerId(httpAddress, httpPort)
      ensures address == httpAddress && port == httpPort
      ensures err == regErr
      ensures services == if regErr.None? then old(services)[id := WorkerService()] else old(services)
      ensures workerTicker == if regErr.None? then Some(WorkerRenewal(ttl)) else old(workerTicker)
      ensures checks == old(checks)
    {
      id := WorkerId(httpAddress, httpPort);
      port := httpPort;
      address := httpAddress;
      if regErr.Some? {
        return regErr;
      }
      services := services[id := WorkerService()];
      workerTicker := Some(WorkerRenewal(ttl));
      return None;
    }

    /** One worker tick: always passing with a fixed output; a failure is
        only logged. */
    method WorkerTick(updateErr: Option<Error>)
      modifies this
      ensures checks == if updateErr.None? then old(checks)[CheckId(id) := CheckStatus(WorkerCheckOutput, Passing)]
                        else old(checks)
      ensures id == old(id) && address == old(address) && port == old(port)
      ensures services == old(services) && workerTicker == old(workerTicker)
    {
      if updateErr.None? {
        checks := checks[CheckId(id) := CheckStatus(WorkerCheckOutput, Passing)];
      }
    }
  }
}
