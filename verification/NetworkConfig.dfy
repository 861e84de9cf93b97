/**
  internal/machine/vm/network_config.go: the MAC address of a Machine's interface, kept on its
  NetworkConfiguration, and the cleanup of that object.
*/
module NetworkConfig {
  import opened Wrappers
  import opened Objects
  import opened Worlds
  import opened Fleet
  import opened Apis
  import opened CloudInitSources
  import NetworkManager

  // ---- which MAC ----

  function StoredMac(w: World, k: Key, network: string): string {
    if k in w.ncs then MacFor(w.ncs[k].ifaces, network) else ""
  }

  method FirstMac(ifaces: seq<Iface>, name: string) returns (mac: string)
    ensures mac == MacFor(ifaces, name)
  {
    for i := 0 to |ifaces|
      invariant MacFor(ifaces, name) == MacFor(ifaces[i..], name)
    {
      assert ifaces[i..][1..] == ifaces[i + 1..];
      if ifaces[i].name == name && ifaces[i].mac != "" {
        return ifaces[i].mac;
      }
    }
    mac := "";
  }

  /** The MAC already stored for the interface, else the generated one. */
  method ResolveOrGenerateMAC(api: Api, k: Key, network: string, generated: Option<string>) returns (mac: Option<string>)
    requires generated.Some? ==> generated.value != ""
    modifies api`faults
    ensures mac.Some? ==> mac.value != ""
    ensures mac.Some? && StoredMac(api.w, k, network) != "" ==> mac.value == StoredMac(api.w, k, network)
    ensures old(api.faults) == [] ==>
              api.faults == [] && (mac.Some? <==> StoredMac(api.w, k, network) != "" || generated.Some?)
  {
    var got := api.Read();
    if !got {
      return None;
    }
    if k in api.w.ncs {
      var stored := FirstMac(api.w.ncs[k].ifaces, network);
      if stored != "" {
        return Some(stored);
      }
    }
    mac := generated;
  }

  // ---- persisting it ----

  /** The interface list after the first entry of that name, or a new one, carries the MAC. */
  function Persisted(ifaces: seq<Iface>, name: string, mac: string): seq<Iface> {
    if ifaces == [] then [Iface(name, mac)]
    else if ifaces[0].name == name then [Iface(name, mac)] + ifaces[1..]
    else [ifaces[0]] + Persisted(ifaces[1..], name, mac)
  }

  lemma {:induction false} PersistedResolves(ifaces: seq<Iface>, name: string, mac: string, other: string)
    requires mac != ""
    ensures MacFor(Persisted(ifaces, name, mac), name) == mac
    ensures other != name ==> MacFor(Persisted(ifaces, name, mac), other) == MacFor(ifaces, other)
  {
    var after := Persisted(ifaces, name, mac);
    if ifaces != [] && ifaces[0].name != name {
      PersistedResolves(ifaces[1..], name, mac, other);
      assert after[1..] == Persisted(ifaces[1..], name, mac);
    } else if ifaces != [] {
      assert after[1..] == ifaces[1..];
    } else {
      assert after[1..] == [];
    }
  }

  lemma PersistKeepsMacs(ifaces: seq<Iface>, name: string, mac: string)
    requires mac != "" && MacFor(ifaces, name) in {"", mac}
    ensures KeepsMacs(ifaces, Persisted(ifaces, name, mac))
  {
    forall other | MacFor(ifaces, other) != ""
      ensures MacFor(Persisted(ifaces, name, mac), other) == MacFor(ifaces, other)
    {
      PersistedResolves(ifaces, name, mac, other);
    }
  }

  lemma {:induction false} PersistedFills(ifaces: seq<Iface>, name: string, mac: string, other: string)
    requires mac != ""
    ensures Fillable(ifaces, other) ==> Fillable(Persisted(ifaces, name, mac), other)
    ensures AllMacs(ifaces) ==> AllMacs(Persisted(ifaces, name, mac))
    ensures Fillable(ifaces, name) <==> AllMacs(Persisted(ifaces, name, mac))
  {
    var after := Persisted(ifaces, name, mac);
    if ifaces != [] {
      assert after[1..] == if ifaces[0].name == name then ifaces[1..] else Persisted(ifaces[1..], name, mac);
      PersistedFills(ifaces[1..], name, mac, other);
      AllMacsStep(ifaces);
    }
    AllMacsStep(after);
  }

  lemma AllMacsStep(ifaces: seq<Iface>)
    requires ifaces != []
    ensures AllMacs(ifaces) <==> ifaces[0].mac != "" && AllMacs(ifaces[1..])
  {
    if ifaces[0].mac != "" && AllMacs(ifaces[1..]) {
      forall i | 0 <= i < |ifaces| ensures ifaces[i].mac != "" {
        if i > 0 { assert ifaces[i] == ifaces[1..][i - 1]; }
      }
    }
  }

  lemma PersistOnlyFills(ifaces: seq<Iface>, name: string, mac: string)
    requires mac != "" && MacFor(ifaces, name) in {"", mac}
    ensures OnlyFills(ifaces, Persisted(ifaces, name, mac))
  {
    PersistKeepsMacs(ifaces, name, mac);
    PersistedFills(ifaces, name, mac, name);
    forall other ensures Fillable(ifaces, other) ==> Fillable(Persisted(ifaces, name, mac), other) {
      PersistedFills(ifaces, name, mac, other);
    }
  }

  /** The interface resolves to a MAC, and persisting it again would change nothing. */
  predicate MacSettled(w: World, k: Key, network: string) {
    k in w.ncs && StoredMac(w, k, network) != "" && Persisted(w.ncs[k].ifaces, network, StoredMac(w, k, network)) == w.ncs[k].ifaces
  }

  /** Persisting again changes nothing. */
  lemma {:induction false} PersistedTwice(ifaces: seq<Iface>, name: string, mac: string)
    ensures Persisted(Persisted(ifaces, name, mac), name, mac) == Persisted(ifaces, name, mac)
  {
    if ifaces != [] && ifaces[0].name != name {
      PersistedTwice(ifaces[1..], name, mac);
      assert Persisted(ifaces, name, mac)[1..] == Persisted(ifaces[1..], name, mac);
    }
  }

  lemma {:induction false} PersistedSplits(ifaces: seq<Iface>, i: nat, name: string, mac: string)
    requires i <= |ifaces| && forall j :: 0 <= j < i ==> ifaces[j].name != name
    ensures Persisted(ifaces, name, mac) == ifaces[..i] + Persisted(ifaces[i..], name, mac)
  {
    if i > 0 {
      PersistedSplits(ifaces[1..], i - 1, name, mac);
      assert ifaces[1..][i - 1..] == ifaces[i..];
      assert ifaces[..i] == [ifaces[0]] + ifaces[1..][..i - 1];
    } else {
      assert ifaces[0..] == ifaces;
    }
  }

  /** The search loop with its `changed` and `interfaceExists` flags. */
  method PersistInterface(ifaces: seq<Iface>, name: string, mac: string) returns (after: seq<Iface>, changed: bool)
    ensures after == Persisted(ifaces, name, mac) && (changed <==> after != ifaces)
  {
    after, changed := ifaces, false;
    var interfaceExists := false;
    var i := 0;
    while i < |ifaces|
      invariant 0 <= i <= |ifaces| && after == ifaces && !changed && !interfaceExists
      invariant forall j :: 0 <= j < i ==> ifaces[j].name != name
    {
      if ifaces[i].name == name {
        interfaceExists := true;
        PersistedSplits(ifaces, i, name, mac);
        assert ifaces == ifaces[..i] + [ifaces[i]] + ifaces[i + 1..];
        assert Persisted(ifaces[i..], name, mac) == [Iface(name, mac)] + ifaces[i + 1..];
        if ifaces[i].mac != mac {
          after := ifaces[i := Iface(name, mac)];
          changed := true;
          assert after == ifaces[..i] + [Iface(name, mac)] + ifaces[i + 1..];
        }
        break;
      }
      i := i + 1;
    }
    if !interfaceExists {
      PersistedSplits(ifaces, |ifaces|, name, mac);
      after := ifaces + [Iface(name, mac)];
      changed := true;
    }
  }

  /** The allocation provider the named NetworkNamespace declares, "" when there is none. */
  function ProviderOf(w: World, k: Key, spec: MachineSpec): string {
    if spec.networkNamespaceName == "" then ""
    else
      match FindByKey(w.netns, Key(k.ns, spec.networkNamespaceName))
      case Some(nn) => if nn.allocation.Some? then nn.allocation.value.provider else ""
      case None => ""
  }

  method ResolveNCProvider(api: Api, k: Key, spec: MachineSpec) returns (provider: Option<string>)
    modifies api`faults
    ensures provider.Some? ==> provider.value == ProviderOf(api.w, k, spec)
    ensures old(api.faults) == [] ==> api.faults == [] && provider.Some?
  {
    if spec.networkNamespaceName == "" {
      return Some("");
    }
    var got := api.Read();
    if !got {
      return None;
    }
    var nn := FindByKey(api.w.netns, Key(k.ns, spec.networkNamespaceName));
    if nn.None? || nn.value.allocation.None? {
      return Some("");
    }
    provider := Some(nn.value.allocation.value.provider);
  }

  /** The provider a managed NetworkConfiguration without one is given. */
  function Backfilled(nc: NC, provider: string): NC {
    if nc.provider != "" || !nc.managed then nc else nc.(provider := provider)
  }

  method BackfillNCProvider(api: Api, k: Key, spec: MachineSpec, nc: NC) returns (ok: bool, after: NC, changed: bool)
    modifies api`faults
    ensures ok ==> after == Backfilled(nc, ProviderOf(api.w, k, spec)) && (changed <==> after != nc)
    ensures old(api.faults) == [] ==> api.faults == [] && ok
  {
    if nc.provider != "" || !nc.managed {
      return true, nc, false;
    }
    var provider := ResolveNCProvider(api, k, spec);
    if provider.None? {
      return false, nc, false;
    }
    if provider.value == "" {
      return true, nc, false;
    }
    return true, nc.(provider := provider.value), true;
  }

  /** Only the Machine's NetworkConfiguration is written. */
  ghost predicate OnlyNC(w: World, w': World, k: Key) {
    w' == w.(ncs := w'.ncs) && (forall x :: x != k ==> (x in w.ncs <==> x in w'.ncs) && (x in w.ncs ==> w'.ncs[x] == w.ncs[x]))
  }

  lemma OnlyNCFrame(w: World, w': World, k: Key)
    requires OnlyNC(w, w', k)
    ensures w' == w.(ncs := w'.ncs)
  {
  }

  /** The NetworkConfiguration as a creation attempt wants it. */
  function Wanted(nc: NC, network: string, mac: string, provider: string): NC {
    Backfilled(nc.(ifaces := Persisted(nc.ifaces, network, mac)), provider)
  }

  function NewNC(k: Key, network: string, mac: string, provider: string): NC {
    NC(true, k.name, provider, [Iface(network, mac)], [], false, false)
  }

  /** Nothing is left to write for this MAC: it is stored, and so is the provider. */
  predicate Settled(w: World, k: Key, spec: MachineSpec, mac: string, network: string) {
    k in w.ncs && Wanted(w.ncs[k], network, mac, ProviderOf(w, k, spec)) == w.ncs[k]
  }

  /** What one persist wrote is settled for the next. */
  lemma WantedIsSettled(nc: NC, network: string, mac: string, provider: string)
    ensures Wanted(Wanted(nc, network, mac, provider), network, mac, provider) == Wanted(nc, network, mac, provider)
  {
    PersistedTwice(nc.ifaces, network, mac);
  }

  lemma NewNCStores(k: Key, network: string, mac: string, provider: string)
    requires mac != ""
    ensures var ifaces := NewNC(k, network, mac, provider).ifaces;
            MacFor(ifaces, network) == mac && AllMacs(ifaces) && Persisted(ifaces, network, mac) == ifaces
  {
  }

  /** Creates or updates the Machine's NetworkConfiguration as `nc`. */
  method SendNC(api: Api, k: Key, e: Effect, nc: NC) returns (ok: bool)
    requires api.Valid() && Legal(api.w, e)
    requires (e == CreateNC(k, nc) && k !in api.w.ncs) || (e == UpdateNC(k, nc) && k in api.w.ncs)
    modifies api
    ensures api.Valid() && old(api.log) <= api.log
    ensures forall i :: |old(api.log)| <= i < |api.log| ==> api.log[i] == e
    ensures api.w == old(api.w) || api.w == old(api.w).(ncs := old(api.w.ncs)[k := nc])
    ensures ok ==> k in api.w.ncs && api.w.ncs[k] == nc
    ensures old(api.faults) == [] ==> api.faults == [] && ok
  {
    hide Api.Valid, Legal;
    var reply := api.Write(e);
    ok := reply == Done;
  }

  method CreateNetworkConfiguration(api: Api, k: Key, spec: MachineSpec, mac: string, network: string) returns (ok: bool)
    requires api.Valid() && k !in api.w.ncs && mac != ""
    requires NoOwnedVM(api.w, k) && k in api.w.machines && !api.w.machines[k].deleting
    modifies api
    ensures api.Valid() && old(api.log) <= api.log
    ensures forall i :: |old(api.log)| <= i < |api.log| ==> api.log[i].CreateNC?
    ensures OnlyNC(old(api.w), api.w, k)
    ensures k in api.w.ncs ==> api.w.ncs[k] == NewNC(k, network, mac, ProviderOf(old(api.w), k, spec))
    ensures ok ==> StoredMac(api.w, k, network) == mac && MacSettled(api.w, k, network)
    ensures old(api.faults) == [] ==> api.faults == [] && ok
  {
    hide Api.Valid, MacFor;
    var provider := ResolveNCProvider(api, k, spec);
    if provider.None? {
      return false;
    }
    NewNCStores(k, network, mac, provider.value);
    var nc := NewNC(k, network, mac, provider.value);
    assert Legal(api.w, CreateNC(k, nc));
    hide Legal, NoOwnedVM, ProviderOf, NewNC, Persisted;
    ok := SendNC(api, k, CreateNC(k, nc), nc);
  }

  lemma WantedKeepsMacs(nc: NC, network: string, mac: string, provider: string)
    requires mac != "" && MacFor(nc.ifaces, network) in {"", mac}
    ensures var after := Wanted(nc, network, mac, provider);
            && OnlyFills(nc.ifaces, after.ifaces) && after.status == nc.status
            && MacFor(after.ifaces, network) == mac && Persisted(after.ifaces, network, mac) == after.ifaces
  {
    PersistOnlyFills(nc.ifaces, network, mac);
    PersistedResolves(nc.ifaces, network, mac, network);
    PersistedTwice(nc.ifaces, network, mac);
  }

  lemma FillsItself(ifaces: seq<Iface>)
    ensures OnlyFills(ifaces, ifaces)
  {
  }

  /** The interfaces and their allocation result are what they were. */
  predicate SameIfaces(w: World, w': World, k: Key) {
    && (k in w.ncs <==> k in w'.ncs)
    && (k in w.ncs ==> w'.ncs[k].ifaces == w.ncs[k].ifaces && w'.ncs[k].status == w.ncs[k].status)
  }

  lemma SettledIsSame(w: World, w': World, k: Key, network: string, provider: string)
    requires MacSettled(w, k, network) && k in w'.ncs
    requires w'.ncs[k] in {w.ncs[k], Wanted(w.ncs[k], network, StoredMac(w, k, network), provider)}
    ensures SameIfaces(w, w', k)
  {
    hide Persisted, MacFor;
  }

  lemma NothingKept(w: World)
    ensures NCsKept(w.ncs, w.ncs)
  {
    forall k | k in w.ncs ensures OnlyFills(w.ncs[k].ifaces, w.ncs[k].ifaces) { FillsItself(w.ncs[k].ifaces); }
  }

  lemma PersistKeepsNCs(w: World, w': World, k: Key, network: string, mac: string, provider: string)
    requires mac != "" && OnlyNC(w, w', k)
    requires k in w.ncs ==> k in w'.ncs && OnlyFills(w.ncs[k].ifaces, w'.ncs[k].ifaces)
    requires k !in w.ncs && k in w'.ncs ==> w'.ncs[k] == NewNC(k, network, mac, provider)
    ensures NCsKept(w.ncs, w'.ncs)
  {
    NothingKept(w);
    NewNCStores(k, network, mac, provider);
    hide OnlyFills, NewNC;
  }

  /** Both edits of an existing object, and whether there is anything to write. */
  method PlanUpdate(api: Api, k: Key, spec: MachineSpec, nc: NC, mac: string, network: string) returns (ok: bool, after: NC, changed: bool)
    modifies api`faults
    ensures ok ==> after == Wanted(nc, network, mac, ProviderOf(api.w, k, spec)) && (changed <==> after != nc)
    ensures old(api.faults) == [] ==> api.faults == [] && ok
  {
    var ifaces, edited := PersistInterface(nc.ifaces, network, mac);
    var providerChanged;
    ok, after, providerChanged := BackfillNCProvider(api, k, spec, nc.(ifaces := ifaces));
    changed := edited || providerChanged;
  }

  method UpdateNetworkConfiguration(api: Api, k: Key, spec: MachineSpec, mac: string, network: string) returns (ok: bool)
    requires api.Valid() && k in api.w.ncs && mac != "" && NoOwnedVM(api.w, k)
    requires StoredMac(api.w, k, network) in {"", mac}
    modifies api
    ensures api.Valid() && old(api.log) <= api.log
    ensures forall i :: |old(api.log)| <= i < |api.log| ==> api.log[i].UpdateNC?
    ensures OnlyNC(old(api.w), api.w, k) && k in api.w.ncs && OnlyFills(old(api.w).ncs[k].ifaces, api.w.ncs[k].ifaces)
    ensures api.w.ncs[k] in {old(api.w).ncs[k], Wanted(old(api.w).ncs[k], network, mac, ProviderOf(old(api.w), k, spec))}
    ensures ok ==> StoredMac(api.w, k, network) == mac && MacSettled(api.w, k, network)
    ensures Wanted(old(api.w).ncs[k], network, mac, ProviderOf(old(api.w), k, spec)) == old(api.w).ncs[k] ==> api.log == old(api.log)
    ensures old(api.faults) == [] ==> api.faults == [] && ok
  {
    hide Api.Valid, MacFor;
    ghost var w := api.w;
    ghost var wanted := Wanted(w.ncs[k], network, mac, ProviderOf(w, k, spec));
    UpdateIsLegal(w, k, network, mac, ProviderOf(w, k, spec));
    hide Legal, Wanted, ProviderOf, NoOwnedVM, OnlyFills, Persisted, OnlyNC, MacSettled, StoredMac;
    var planned, after, changed := PlanUpdate(api, k, spec, api.w.ncs[k], mac, network);
    if !planned {
      ok := false;
    } else if !changed {
      ok := true;
    } else {
      ok := SendNC(api, k, UpdateNC(k, after), after);
    }
    UpdatedNC(w, api.w, k, network, mac, wanted);
  }

  lemma UpdateIsLegal(w: World, k: Key, network: string, mac: string, provider: string)
    requires k in w.ncs && mac != "" && NoOwnedVM(w, k) && StoredMac(w, k, network) in {"", mac}
    ensures var nc := Wanted(w.ncs[k], network, mac, provider);
            Legal(w, UpdateNC(k, nc)) && OnlyFills(w.ncs[k].ifaces, nc.ifaces) && OnlyFills(w.ncs[k].ifaces, w.ncs[k].ifaces)
            && MacFor(nc.ifaces, network) == mac && Persisted(nc.ifaces, network, mac) == nc.ifaces
  {
    hide MacFor;
    WantedKeepsMacs(w.ncs[k], network, mac, provider);
    FillsItself(w.ncs[k].ifaces);
  }

  lemma UpdatedNC(w: World, w': World, k: Key, network: string, mac: string, nc: NC)
    requires k in w.ncs && mac != "" && (w' == w || w' == w.(ncs := w.ncs[k := nc]))
    requires OnlyFills(w.ncs[k].ifaces, nc.ifaces) && OnlyFills(w.ncs[k].ifaces, w.ncs[k].ifaces)
    requires MacFor(nc.ifaces, network) == mac && Persisted(nc.ifaces, network, mac) == nc.ifaces
    ensures OnlyNC(w, w', k) && k in w'.ncs && OnlyFills(w.ncs[k].ifaces, w'.ncs[k].ifaces)
    ensures w'.ncs[k] == nc ==> StoredMac(w', k, network) == mac && MacSettled(w', k, network)
  {
    hide MacFor, OnlyFills, Persisted;
  }

  /**
    On success the NetworkConfiguration stores the MAC for the interface; every MAC stored before still
    resolves; and a repeated call with the provider settled issues no write.
  */
  method PersistMacAddressesToNetworkConfiguration(api: Api, k: Key, spec: MachineSpec, mac: string, network: string) returns (ok: bool)
    requires api.Valid() && mac != "" && NoOwnedVM(api.w, k) && k in api.w.machines && !api.w.machines[k].deleting
    requires StoredMac(api.w, k, network) in {"", mac}
    modifies api
    ensures api.Valid() && old(api.log) <= api.log
    ensures forall i :: |old(api.log)| <= i < |api.log| ==> api.log[i].CreateNC? || api.log[i].UpdateNC?
    ensures OnlyNC(old(api.w), api.w, k)
    ensures k in old(api.w.ncs) ==> k in api.w.ncs && OnlyFills(old(api.w).ncs[k].ifaces, api.w.ncs[k].ifaces)
    ensures k in old(api.w.ncs) ==> api.w.ncs[k] in {old(api.w).ncs[k], Wanted(old(api.w).ncs[k], network, mac, ProviderOf(old(api.w), k, spec))}
    ensures k !in old(api.w.ncs) && k in api.w.ncs ==> api.w.ncs[k] == NewNC(k, network, mac, ProviderOf(old(api.w), k, spec))
    ensures ok ==> StoredMac(api.w, k, network) == mac && MacSettled(api.w, k, network)
    ensures Settled(old(api.w), k, spec, mac, network) ==> api.log == old(api.log)
    ensures old(api.faults) == [] ==> api.faults == [] && ok
  {
    hide Api.Valid, MacFor, Wanted, ProviderOf, NoOwnedVM, MacSettled, OnlyFills;
    if k in api.w.ncs { FillsItself(api.w.ncs[k].ifaces); }
    var got := api.Read();
    if !got {
      ok := false;
    } else if k !in api.w.ncs {
      ok := CreateNetworkConfiguration(api, k, spec, mac, network);
    } else {
      ok := UpdateNetworkConfiguration(api, k, spec, mac, network);
    }
  }

  /** The self-healing pass: at most the provider changes. */
  method EnsureNCProviderBackfilled(api: Api, k: Key, spec: MachineSpec)
    requires api.Valid()
    modifies api
    ensures api.Valid() && old(api.log) <= api.log
    ensures forall i :: |old(api.log)| <= i < |api.log| ==> api.log[i].UpdateNC?
    ensures OnlyNC(old(api.w), api.w, k) && (k !in old(api.w.ncs) ==> k !in api.w.ncs)
    ensures k in old(api.w.ncs) ==> k in api.w.ncs && api.w.ncs[k] in {old(api.w.ncs)[k], Backfilled(old(api.w.ncs)[k], ProviderOf(old(api.w), k, spec))}
    ensures old(api.faults) == [] ==> api.faults == []
    ensures old(api.faults) == [] && k in old(api.w.ncs) ==> api.w.ncs[k] == Backfilled(old(api.w.ncs)[k], ProviderOf(old(api.w), k, spec))
  {
    hide Api.Valid;
    var got := api.Read();
    if !got || k !in api.w.ncs {
      return;
    }
    var ok, after, changed := BackfillNCProvider(api, k, spec, api.w.ncs[k]);
    if !ok || !changed {
      return;
    }
    var _ := api.Write(UpdateNC(k, after));
  }

  // ---- agreement over any sequence of attempts ----

  /** One attempt to create the VM: the network it attached to, the MAC it would generate, whether it got to persist. */
  datatype Attempt = Attempt(network: string, generated: string, persists: bool)

  function Chosen(ifaces: seq<Iface>, a: Attempt): string {
    if MacFor(ifaces, a.network) != "" then MacFor(ifaces, a.network) else a.generated
  }

  function AfterAttempts(ifaces: seq<Iface>, attempts: seq<Attempt>): seq<Iface>
    decreases |attempts|
  {
    if attempts == [] then ifaces
    else
      var a := attempts[0];
      AfterAttempts(if a.persists then Persisted(ifaces, a.network, Chosen(ifaces, a)) else ifaces, attempts[1..])
  }

  /** Once stored, a MAC is what every later attempt resolves to, also when its name has duplicate entries. */
  lemma {:induction false} StoredMacSticks(ifaces: seq<Iface>, attempts: seq<Attempt>, name: string)
    requires forall i :: 0 <= i < |attempts| ==> attempts[i].generated != ""
    requires MacFor(ifaces, name) != ""
    ensures MacFor(AfterAttempts(ifaces, attempts), name) == MacFor(ifaces, name)
    decreases |attempts|
  {
    if attempts != [] {
      var a := attempts[0];
      if a.persists {
        PersistKeepsMacs(ifaces, a.network, Chosen(ifaces, a));
        StoredMacSticks(Persisted(ifaces, a.network, Chosen(ifaces, a)), attempts[1..], name);
      } else {
        StoredMacSticks(ifaces, attempts[1..], name);
      }
    }
  }

  /** The first attempt that persists decides the MAC of its interface for good. */
  lemma FirstPersistDecides(ifaces: seq<Iface>, a: Attempt, later: seq<Attempt>)
    requires a.persists && a.generated != "" && forall i :: 0 <= i < |later| ==> later[i].generated != ""
    ensures MacFor(AfterAttempts(ifaces, [a] + later), a.network) == Chosen(ifaces, a)
  {
    var after := Persisted(ifaces, a.network, Chosen(ifaces, a));
    PersistedResolves(ifaces, a.network, Chosen(ifaces, a), a.network);
    StoredMacSticks(after, later, a.network);
    assert ([a] + later)[1..] == later;
  }

  // ---- cleanup ----

  /** The NetworkConfiguration is this operator's, of this Machine, and its MACs are those in the Machine's status. */
  predicate NCMatches(nc: NC, k: Key, statusMacs: seq<string>) {
    && nc.managed && nc.sourceMachine == k.name
    && (statusMacs != [] ==> forall i :: 0 <= i < |nc.ifaces| && nc.ifaces[i].mac != "" ==> nc.ifaces[i].mac in statusMacs)
  }

  method MacsInStatus(ifaces: seq<Iface>, statusMacs: seq<string>) returns (ok: bool)
    ensures ok <==> forall i :: 0 <= i < |ifaces| && ifaces[i].mac != "" ==> ifaces[i].mac in statusMacs
  {
    var known := {};
    for i := 0 to |statusMacs|
      invariant forall x :: x in known <==> x != "" && x in statusMacs[..i]
    {
      assert statusMacs[..i + 1] == statusMacs[..i] + [statusMacs[i]];
      if statusMacs[i] != "" {
        known := known + {statusMacs[i]};
      }
    }
    assert statusMacs[..|statusMacs|] == statusMacs;
    for i := 0 to |ifaces|
      invariant forall j :: 0 <= j < i && ifaces[j].mac != "" ==> ifaces[j].mac in statusMacs
    {
      if ifaces[i].mac != "" && ifaces[i].mac !in known {
        return false;
      }
    }
    ok := true;
  }

  /** What the operator creates and updates for a Machine its deletion accepts, unless the status disowns a MAC. */
  lemma OwnNCIsAccepted(nc: NC, k: Key, network: string, mac: string, provider: string, statusMacs: seq<string>)
    requires mac != ""
    ensures NCMatches(NewNC(k, network, mac, provider), k, statusMacs) <==> statusMacs == [] || mac in statusMacs
    ensures NCMatches(NewNC(k, network, mac, provider), k, [])
    ensures NCMatches(nc, k, []) ==> NCMatches(Wanted(nc, network, mac, provider), k, []) && NCMatches(Backfilled(nc, provider), k, [])
    ensures NCMatches(nc, k, []) <==> nc.managed && nc.sourceMachine == k.name
    ensures var n := NewNC(k, network, mac, provider); n.provider == provider && n.ifaces == [Iface(network, mac)] && n.status == []
  {
    var fresh_ := NewNC(k, network, mac, provider);
    assert fresh_.ifaces[0].mac == mac;
  }

  predicate NCGone(w: World, k: Key) {
    k in w.ncs ==> w.ncs[k].terminating
  }

  method CleanupNetworkConfiguration(api: Api, k: Key, statusMacs: seq<string>) returns (ok: bool)
    requires api.Valid() && Deleting(api.w, k) && NoOwnedVM(api.w, k)
    modifies api
    ensures api.Valid() && old(api.log) <= api.log
    ensures forall i :: |old(api.log)| <= i < |api.log| ==> api.log[i] == DeleteNC(k)
    ensures OnlyNC(old(api.w), api.w, k)
    ensures ok ==> NCGone(api.w, k)
    ensures k in old(api.w.ncs) && !NCMatches(old(api.w).ncs[k], k, statusMacs) ==> !ok && api.w == old(api.w)
    ensures old(api.faults) == [] ==>
              api.faults == [] && (ok <==> (k in old(api.w.ncs) ==> NCMatches(old(api.w).ncs[k], k, statusMacs)))
  {
    hide Api.Valid;
    var got := api.Read();
    if !got {
      return false;
    }
    if k !in api.w.ncs {
      return true;
    }
    var nc := api.w.ncs[k];
    if !nc.managed || nc.sourceMachine != k.name {
      return false;
    }
    if |statusMacs| > 0 {
      var matching := MacsInStatus(nc.ifaces, statusMacs);
      if !matching {
        return false;
      }
    }
    var reply := api.Write(DeleteNC(k));
    ok := reply == Done;
  }
}
