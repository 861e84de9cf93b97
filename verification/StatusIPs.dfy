/**
  The addresses a Machine's status reports, from the interfaces of its VirtualMachineInstance
  (internal/machine/status/status_manager.go). `classify` stands for net.ParseIP and To4.
*/
module StatusIPs {
  import opened Filters

  datatype Class = Invalid | V4 | V6

  datatype VMIInterface = VMIInterface(name: string, mac: string, ips: seq<string>, linkState: string, infoSource: string)

  datatype Interface = Interface(name: string, mac: string, ips: seq<string>, ipv6: seq<string>, state: string, kind: string)

  predicate Usable(v: VMIInterface) { v.mac != "" && v.mac != "00:00:00:00:00:00" && v.ips != [] }

  predicate Named(i: Interface) { i.name != "" }

  // ---- specification ----

  function Valid(classify: string -> Class): string -> bool { ip => classify(ip) != Invalid }
  function Is(classify: string -> Class, c: Class): string -> bool { ip => classify(ip) == c }

  /** All addresses of a list of interfaces, in order. */
  function IPsOf(ns: seq<Interface>): seq<string> { if ns == [] then [] else ns[0].ips + IPsOf(ns[1..]) }

  function RawIPs(vs: seq<VMIInterface>): seq<string> { if vs == [] then [] else vs[0].ips + RawIPs(vs[1..]) }

  function Reported(v: VMIInterface, classify: string -> Class): Interface {
    Interface(v.name, v.mac, Keep(v.ips, Valid(classify)), Keep(v.ips, Is(classify, V6)), v.linkState, v.infoSource)
  }

  function ReportedAll(vs: seq<VMIInterface>, classify: string -> Class): seq<Interface> {
    seq(|vs|, i requires 0 <= i < |vs| => Reported(vs[i], classify))
  }

  lemma {:induction false} IPsAppend(a: seq<Interface>, b: seq<Interface>)
    ensures IPsOf(a + b) == IPsOf(a) + IPsOf(b)
  {
    if a == [] {
      assert a + b == b;
    } else {
      assert (a + b)[1..] == a[1..] + b;
      IPsAppend(a[1..], b);
    }
  }

  lemma IPsOfOne(ns: seq<Interface>, i: nat, p: Interface -> bool)
    requires i < |ns|
    ensures IPsOf(ns[..i + 1]) == IPsOf(ns[..i]) + ns[i].ips
    ensures IPsOf(Keep(ns[..i + 1], p)) == IPsOf(Keep(ns[..i], p)) + (if p(ns[i]) then ns[i].ips else [])
  {
    assert ns[..i + 1] == ns[..i] + [ns[i]];
    assert IPsOf([ns[i]]) == ns[i].ips;
    IPsAppend(ns[..i], [ns[i]]);
    KeepOne(ns, i, p);
    IPsAppend(Keep(ns[..i], p), if p(ns[i]) then [ns[i]] else []);
  }

  lemma {:induction false} MembersOf(ns: seq<Interface>, p: Interface -> bool, ip: string)
    ensures ip in IPsOf(Keep(ns, p)) <==> exists i :: 0 <= i < |ns| && p(ns[i]) && ip in ns[i].ips
  {
    if ns != [] {
      MembersOf(ns[1..], p, ip);
      IPsAppend(if p(ns[0]) then [ns[0]] else [], Keep(ns[1..], p));
      assert IPsOf([ns[0]]) == ns[0].ips;
      if exists i :: 0 <= i < |ns| && p(ns[i]) && ip in ns[i].ips {
        var i :| 0 <= i < |ns| && p(ns[i]) && ip in ns[i].ips;
        assert i > 0 ==> ns[1..][i - 1] == ns[i];
      }
      if exists i :: 0 <= i < |ns[1..]| && p(ns[1..][i]) && ip in ns[1..][i].ips {
        var i :| 0 <= i < |ns[1..]| && p(ns[1..][i]) && ip in ns[1..][i].ips;
        assert ns[i + 1] == ns[1..][i];
      }
    }
  }

  // ---- the code ----

  method FilterAddresses(ips: seq<string>, classify: string -> Class, c: Class) returns (r: seq<string>)
    ensures r == Keep(ips, Is(classify, c))
  {
    r := [];
    for i := 0 to |ips|
      invariant r == Keep(ips[..i], Is(classify, c))
    {
      KeepOne(ips, i, Is(classify, c));
      if classify(ips[i]) == c { r := r + [ips[i]]; }
    }
    assert ips[..|ips|] == ips;
  }

  method ExtractNetworkInterfacesFromVMI(vmi: seq<VMIInterface>, before: seq<Interface>, classify: string -> Class)
    returns (r: seq<Interface>)
    ensures r == before + ReportedAll(Keep(vmi, Usable), classify)
  {
    r := before;
    for i := 0 to |vmi|
      invariant r == before + ReportedAll(Keep(vmi[..i], Usable), classify)
    {
      KeepOne(vmi, i, Usable);
      var v := vmi[i];
      if v.mac == "" || v.mac == "00:00:00:00:00:00" { continue; }
      if v.ips == [] { continue; }
      var all, six := [], [];
      for j := 0 to |v.ips|
        invariant all == Keep(v.ips[..j], Valid(classify)) && six == Keep(v.ips[..j], Is(classify, V6))
      {
        KeepOne(v.ips, j, Valid(classify));
        KeepOne(v.ips, j, Is(classify, V6));
        if classify(v.ips[j]) != Invalid {
          all := all + [v.ips[j]];
          if classify(v.ips[j]) != V4 { six := six + [v.ips[j]]; }
        }
      }
      assert v.ips[..|v.ips|] == v.ips;
      r := r + [Interface(v.name, v.mac, all, six, v.linkState, v.infoSource)];
      assert ReportedAll(Keep(vmi[..i], Usable) + [v], classify) == ReportedAll(Keep(vmi[..i], Usable), classify) + [Reported(v, classify)];
    }
    assert vmi[..|vmi|] == vmi;
  }

  class MachineStatus {
    var publicIPs: seq<string>
    var privateIPs: seq<string>
    var networkInterfaces: seq<Interface>
    var ipv6: seq<string>
    var ipv4: seq<string>

    method PopulateIPAddressesFromInterfaces(ns: seq<Interface>, classify: string -> Class)
      modifies this
      ensures publicIPs == IPsOf(Keep(ns, Named)) && privateIPs == IPsOf(Keep(ns, n => !Named(n)))
      ensures ipv4 == Keep(IPsOf(ns), Is(classify, V4)) && ipv6 == Keep(IPsOf(ns), Is(classify, V6))
      ensures networkInterfaces == ns
      ensures forall ip :: ip in publicIPs <==> exists i :: 0 <= i < |ns| && ns[i].name != "" && ip in ns[i].ips
      ensures forall ip :: ip in privateIPs <==> exists i :: 0 <= i < |ns| && ns[i].name == "" && ip in ns[i].ips
    {
      var all, unnamed, named := [], [], [];
      var nameless := n => !Named(n);
      for i := 0 to |ns|
        invariant all == IPsOf(ns[..i])
        invariant named == IPsOf(Keep(ns[..i], Named)) && unnamed == IPsOf(Keep(ns[..i], nameless))
      {
        IPsOfOne(ns, i, Named);
        IPsOfOne(ns, i, nameless);
        all := all + ns[i].ips;
        if ns[i].name == "" { unnamed := unnamed + ns[i].ips; } else { named := named + ns[i].ips; }
      }
      assert ns[..|ns|] == ns;
      forall ip ensures ip in named <==> exists i :: 0 <= i < |ns| && ns[i].name != "" && ip in ns[i].ips { MembersOf(ns, Named, ip); }
      forall ip ensures ip in unnamed <==> exists i :: 0 <= i < |ns| && ns[i].name == "" && ip in ns[i].ips { MembersOf(ns, nameless, ip); }
      publicIPs, privateIPs, networkInterfaces := named, unnamed, ns;
      ipv6 := FilterAddresses(all, classify, V6);
      ipv4 := FilterAddresses(all, classify, V4);
    }
  }

  // ---- conservation ----

  /** The addresses extracted are exactly the valid ones of the usable interfaces, in order. */
  lemma {:induction false} ExtractedAreTheValidOnes(vs: seq<VMIInterface>, classify: string -> Class)
    ensures IPsOf(ReportedAll(vs, classify)) == Keep(RawIPs(vs), Valid(classify))
  {
    if vs != [] {
      ExtractedAreTheValidOnes(vs[1..], classify);
      assert ReportedAll(vs, classify)[1..] == ReportedAll(vs[1..], classify);
      KeepAppends(vs[0].ips, RawIPs(vs[1..]), Valid(classify));
    }
  }

  lemma {:induction false} NamedAndUnnamedPartition(ns: seq<Interface>)
    ensures multiset(IPsOf(Keep(ns, Named))) + multiset(IPsOf(Keep(ns, n => !Named(n)))) == multiset(IPsOf(ns))
  {
    if ns != [] {
      var nameless := n => !Named(n);
      NamedAndUnnamedPartition(ns[1..]);
      IPsAppend(if Named(ns[0]) then [ns[0]] else [], Keep(ns[1..], Named));
      IPsAppend(if nameless(ns[0]) then [ns[0]] else [], Keep(ns[1..], nameless));
      assert IPsOf([ns[0]]) == ns[0].ips;
    }
  }

  lemma VersionsPartition(ips: seq<string>, classify: string -> Class)
    ensures multiset(Keep(ips, Is(classify, V4))) + multiset(Keep(ips, Is(classify, V6))) == multiset(Keep(ips, Valid(classify)))
  {
    var l := multiset(Keep(ips, Is(classify, V4))) + multiset(Keep(ips, Is(classify, V6)));
    forall ip: string ensures l[ip] == multiset(Keep(ips, Valid(classify)))[ip] {
      KeepCounts(ips, Is(classify, V4), ip);
      KeepCounts(ips, Is(classify, V6), ip);
      KeepCounts(ips, Valid(classify), ip);
    }
  }

  lemma {:induction false} KeepTwice<T>(s: seq<T>, p: T -> bool, q: T -> bool)
    requires forall x :: q(x) ==> p(x)
    ensures Keep(Keep(s, p), q) == Keep(s, q)
  {
    if s != [] {
      KeepTwice(s[1..], p, q);
      KeepAppends(if p(s[0]) then [s[0]] else [], Keep(s[1..], p), q);
    }
  }

  /**
    Nothing is lost and nothing is invented: by version or by interface name, the reported addresses are all valid
    addresses of the usable interfaces, and each version's list is in the order the interfaces report them.
  */
  lemma AddressesAreConserved(vmi: seq<VMIInterface>, classify: string -> Class)
    ensures var ns := ReportedAll(Keep(vmi, Usable), classify);
            var valid := Keep(RawIPs(Keep(vmi, Usable)), Valid(classify));
            var v4, v6 := Keep(IPsOf(ns), Is(classify, V4)), Keep(IPsOf(ns), Is(classify, V6));
            && multiset(v4) + multiset(v6) == multiset(valid)
            && multiset(IPsOf(Keep(ns, Named))) + multiset(IPsOf(Keep(ns, n => !Named(n)))) == multiset(valid)
            && v4 == Keep(RawIPs(Keep(vmi, Usable)), Is(classify, V4))
            && v6 == Keep(RawIPs(Keep(vmi, Usable)), Is(classify, V6))
  {
    var us := Keep(vmi, Usable);
    var ns := ReportedAll(us, classify);
    ExtractedAreTheValidOnes(us, classify);
    NamedAndUnnamedPartition(ns);
    VersionsPartition(RawIPs(us), classify);
    KeepTwice(RawIPs(us), Valid(classify), Is(classify, V4));
    KeepTwice(RawIPs(us), Valid(classify), Is(classify, V6));
  }
}
