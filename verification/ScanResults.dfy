/** How scanHosts of internal/scanner/scanner.go turns what arrives on the result channel into its answer. */
module ScanResults {
  import opened Addresses
  import opened ScanPool
  import Classifiers
  import ScanTargets

  datatype Host = Host(ip: IP, ports: seq<nat>)

  /** The ports reported for an address, in order of arrival. */
  function PortsOf(got: seq<Task>, ip: IP): seq<nat> {
    if got == [] then [] else
      var r := got[|got| - 1];
      PortsOf(got[..|got| - 1], ip) + if r.ip == ip then [r.port] else []
  }

  /** One host for each input address that has a report, in input order. */
  function HostsOf(ips: seq<IP>, got: seq<Task>): seq<Host> {
    if ips == [] then [] else
      var ip := ips[|ips| - 1];
      HostsOf(ips[..|ips| - 1], got) + if PortsOf(got, ip) != [] then [Host(ip, PortsOf(got, ip))] else []
  }

  /** The open ports of an address, in the order of the port list. */
  function OpenPorts(c: Config, ip: IP, ports: seq<nat>): seq<nat> {
    if ports == [] then [] else
      var p := ports[|ports| - 1];
      OpenPorts(c, ip, ports[..|ports| - 1]) + if c.open(Task(ip, p)) then [p] else []
  }

  /** The input addresses with an open port. */
  function Alive(c: Config, ips: seq<IP>): seq<IP> {
    if ips == [] then [] else
      var ip := ips[|ips| - 1];
      Alive(c, ips[..|ips| - 1]) + if OpenPorts(c, ip, c.ports) != [] then [ip] else []
  }

  method HostMap(got: seq<Task>) returns (hostMap: map<IP, seq<nat>>)
    ensures forall ip :: ip in hostMap <==> PortsOf(got, ip) != []
    ensures forall ip :: ip in hostMap ==> hostMap[ip] == PortsOf(got, ip)
  {
    hostMap := map[];
    for i := 0 to |got|
      invariant forall ip :: ip in hostMap <==> PortsOf(got[..i], ip) != []
      invariant forall ip :: ip in hostMap ==> hostMap[ip] == PortsOf(got[..i], ip)
    {
      var r := got[i];
      assert got[..i + 1][..i] == got[..i];
      hostMap := hostMap[r.ip := (if r.ip in hostMap then hostMap[r.ip] else []) + [r.port]];
    }
    assert got[..|got|] == got;
  }

  method CollectHosts(ips: seq<IP>, got: seq<Task>) returns (hosts: seq<Host>)
    ensures hosts == HostsOf(ips, got)
  {
    var hostMap := HostMap(got);
    hosts := [];
    for i := 0 to |ips|
      invariant hosts == HostsOf(ips[..i], got)
    {
      assert ips[..i + 1][..i] == ips[..i];
      if ips[i] in hostMap {
        hosts := hosts + [Host(ips[i], hostMap[ips[i]])];
      }
    }
    assert ips[..|ips|] == ips;
  }

  // ----- counting ports -----

  lemma {:induction false} PortsOfCounts(got: seq<Task>, ip: IP, p: nat)
    ensures multiset(PortsOf(got, ip))[p] == Times(got, Task(ip, p))
  {
    if got != [] { PortsOfCounts(got[..|got| - 1], ip, p); }
  }

  lemma {:induction false} OpenPortsCounts(c: Config, ip: IP, ports: seq<nat>, p: nat)
    ensures multiset(OpenPorts(c, ip, ports))[p] ==
            if c.open(Task(ip, p)) then Times(TasksFor(ip, ports), Task(ip, p)) else 0
  {
    if ports != [] {
      var before := ports[..|ports| - 1];
      OpenPortsCounts(c, ip, before, p);
      assert TasksFor(ip, ports)[..|ports| - 1] == TasksFor(ip, before);
    }
  }

  lemma {:induction false} TimesJoin(a: seq<Task>, b: seq<Task>, x: Task)
    ensures Times(a + b, x) == Times(a, x) + Times(b, x)
  {
    if b == [] {
      assert a + b == a;
    } else {
      assert (a + b)[..|a + b| - 1] == a + b[..|b| - 1];
      TimesJoin(a, b[..|b| - 1], x);
    }
  }

  lemma {:induction false} ForeignTasks(ip: IP, ports: seq<nat>, x: Task)
    requires x.ip != ip
    ensures Times(TasksFor(ip, ports), x) == 0
  {
    if ports != [] {
      assert TasksFor(ip, ports)[..|ports| - 1] == TasksFor(ip, ports[..|ports| - 1]);
      ForeignTasks(ip, ports[..|ports| - 1], x);
    }
  }

  predicate Distinct(ips: seq<IP>) {
    forall i, j :: 0 <= i < j < |ips| ==> ips[i] != ips[j]
  }

  /** With distinct addresses the tasks of one address are its port list. */
  lemma {:induction false} TasksOfAddress(ips: seq<IP>, ports: seq<nat>, x: Task)
    requires Distinct(ips)
    ensures Times(AllTasks(ips, ports), x) == if x.ip in ips then Times(TasksFor(x.ip, ports), x) else 0
  {
    if ips != [] {
      var before, ip := ips[..|ips| - 1], ips[|ips| - 1];
      assert ips == before + [ip];
      TasksOfAddress(before, ports, x);
      TimesJoin(AllTasks(before, ports), TasksFor(ip, ports), x);
      if x.ip != ip { ForeignTasks(ip, ports, x); }
    }
  }

  lemma SameElements(a: seq<nat>, b: seq<nat>)
    requires forall p :: multiset(a)[p] == multiset(b)[p]
    ensures multiset(a) == multiset(b) && (a == [] <==> b == [])
  {
    assert |multiset(a)| == |a| && |multiset(b)| == |b|;
  }

  /** The reports for an address are its open ports, in some order. */
  ghost predicate Reported(c: Config, got: seq<Task>, ip: IP) {
    && multiset(PortsOf(got, ip)) == multiset(OpenPorts(c, ip, c.ports))
    && (PortsOf(got, ip) == [] <==> OpenPorts(c, ip, c.ports) == [])
  }

  /** When main is done, the reports for an input address are exactly its open ports, in some order. */
  lemma ReportsAreOpenPorts(c: Config, schedule: seq<Thread>, ip: IP)
    requires c.workers > 0 && Distinct(c.ips) && ip in c.ips
    requires Run(c, schedule).Some? && Run(c, schedule).value.main == Done
    ensures Reported(c, Run(c, schedule).value.got, ip)
  {
    var got := Run(c, schedule).value.got;
    forall p: nat ensures multiset(PortsOf(got, ip))[p] == multiset(OpenPorts(c, ip, c.ports))[p] {
      PortsOfCounts(got, ip, p);
      DoneCounts(c, schedule, Task(ip, p));
      TasksOfAddress(c.ips, c.ports, Task(ip, p));
      OpenPortsCounts(c, ip, c.ports, p);
    }
    SameElements(PortsOf(got, ip), OpenPorts(c, ip, c.ports));
  }

  /** The hosts list the addresses with an open port in input order, each with exactly its open ports. */
  ghost predicate IsScanOf(c: Config, ips: seq<IP>, hosts: seq<Host>) {
    && |hosts| == |Alive(c, ips)|
    && forall i :: 0 <= i < |hosts| ==>
         hosts[i].ip == Alive(c, ips)[i] && multiset(hosts[i].ports) == multiset(OpenPorts(c, hosts[i].ip, c.ports))
  }

  lemma {:induction false} HostsAreScan(c: Config, ips: seq<IP>, got: seq<Task>)
    requires forall ip :: ip in ips ==> Reported(c, got, ip)
    ensures IsScanOf(c, ips, HostsOf(ips, got))
  {
    if ips != [] {
      assert ips[|ips| - 1] in ips;
      HostsAreScan(c, ips[..|ips| - 1], got);
    }
  }

  /** The answer of a scan does not depend on the schedule, except for the order of one host's ports. */
  lemma ScanExact(c: Config, schedule: seq<Thread>)
    requires c.workers > 0 && Distinct(c.ips)
    requires Run(c, schedule).Some? && Run(c, schedule).value.main == Done
    ensures IsScanOf(c, c.ips, HostsOf(c.ips, Run(c, schedule).value.got))
  {
    forall ip | ip in c.ips ensures Reported(c, Run(c, schedule).value.got, ip) {
      ReportsAreOpenPorts(c, schedule, ip);
    }
    HostsAreScan(c, c.ips, Run(c, schedule).value.got);
  }

  lemma {:induction false} AliveAreInputs(c: Config, ips: seq<IP>)
    ensures forall ip :: ip in Alive(c, ips) ==> ip in ips
  {
    if ips != [] { AliveAreInputs(c, ips[..|ips| - 1]); }
  }

  /** A whole scan: what an accepted request delivers, and that it names only addresses in scope. */
  lemma ScanOfInput(input: ScanTargets.Input, c: Config, schedule: seq<Thread>)
    requires ScanTargets.ResolveTargets(input) == ScanTargets.Accepted(c.ips) && c.workers > 0
    requires Run(c, schedule).Some? && Run(c, schedule).value.main == Done
    ensures var hosts := HostsOf(c.ips, Run(c, schedule).value.got);
            IsScanOf(c, c.ips, hosts) && forall i :: 0 <= i < |hosts| ==> Classifiers.InScope(hosts[i].ip)
  {
    ScanTargets.AcceptedInScope(input);
    assert Distinct(c.ips);
    ScanExact(c, schedule);
    AliveAreInputs(c, c.ips);
  }
}
