/**
  internal/machine/network/network_manager.go: the network a Machine attaches to, the shared bridge
  NetworkAttachmentDefinitions and the three routines that delete them.
*/
module NetworkManager {
  import opened Wrappers
  import opened Objects
  import opened Worlds
  import opened Fleet
  import opened Apis
  import opened Decimals

  // ---- which network ----

  function NADNameFor(vlan: int): string {
    if vlan > -1 then "vlan" + Decimal(vlan) else "bridge-br0"
  }

  /** One NAD name stands for one VLAN. */
  lemma NADNamesDiffer(a: int, b: int)
    requires a >= 0 && NADNameFor(a) == NADNameFor(b)
    ensures a == b
  {
    assert NADNameFor(a)[0] == 'v';
    if b >= 0 {
      assert NADNameFor(a)[4..] == Decimal(a) && NADNameFor(b)[4..] == Decimal(b);
      DecimalInjective(a, b);
    }
  }

  datatype Lookup = LookupFailed | Absent | Present(nn: NetNs)

  function FirstInNamespace(items: seq<NetNs>, ns: string): (r: Option<NetNs>)
    ensures r.Some? ==> exists i :: 0 <= i < |items| && items[i] == r.value && items[i].key.ns == ns
                                    && forall j :: 0 <= j < i ==> items[j].key.ns != ns
    ensures r.None? ==> forall nn :: nn in items ==> nn.key.ns != ns
  {
    if items == [] then None else if items[0].key.ns == ns then Some(items[0]) else FirstInNamespace(items[1..], ns)
  }

  /** The NetworkNamespace of a Machine: the named one, else one called like the Machine, else the first listed. */
  function NetNsOf(w: World, k: Key, spec: MachineSpec): Lookup {
    if spec.networkNamespaceName != "" then
      match FindByKey(w.netns, Key(k.ns, spec.networkNamespaceName))
      case Some(nn) => Present(nn)
      case None => LookupFailed
    else
      match FindByKey(w.netns, k)
      case Some(nn) => Present(nn)
      case None =>
        match FirstInNamespace(w.netns, k.ns)
        case Some(nn) => Present(nn)
        case None => Absent
  }

  datatype Attachment = NotReady | PodNetwork | Bridge(vlan: int)

  function AttachmentFor(found: Lookup): Attachment {
    match found
    case LookupFailed => NotReady
    case Absent => PodNetwork
    case Present(nn) =>
      if !nn.phaseReady then NotReady
      else if nn.vlan <= 0 && !(nn.allocation.Some? && nn.allocation.value.isStatic) then PodNetwork
      else Bridge(nn.vlan)
  }

  function NetworkFor(a: Attachment): Network
    requires !a.NotReady?
  {
    if a.PodNetwork? then Network("default", None) else Network(NADNameFor(a.vlan), Some(NADNameFor(a.vlan)))
  }

  /** Which network a NetworkNamespace means for a VM, in terms of its own fields. */
  lemma NetworkOfNamespace(nn: NetNs)
    ensures var a := AttachmentFor(Present(nn));
            && (a.NotReady? <==> !nn.phaseReady)
            && (nn.phaseReady ==>
                  var network := NetworkFor(a);
                  var isStatic := nn.allocation.Some? && nn.allocation.value.isStatic;
                  && (nn.vlan > 0 ==> network.multus == Some("vlan" + Decimal(nn.vlan)))
                  && (nn.vlan == 0 && isStatic ==> network.multus == Some("vlan0"))
                  && (nn.vlan < 0 && isStatic ==> network.multus == Some("bridge-br0"))
                  && (nn.vlan <= 0 && !isStatic ==> network == Network("default", None))
                  && (network.multus.Some? ==> network.name == network.multus.value))
    ensures AttachmentFor(LookupFailed).NotReady?
    ensures !AttachmentFor(Absent).NotReady? && NetworkFor(AttachmentFor(Absent)) == Network("default", None)
  {
    assert Decimal(0) == "0";
    assert "vlan" + "0" == "vlan0";
  }

  function NADRef(cluster: string, ns: string, nad: string): Ref {
    Ref(cluster, Key(ns, nad))
  }

  // ---- get or create ----

  method FindNetworkNamespace(api: Api, k: Key, spec: MachineSpec) returns (found: Lookup)
    modifies api`faults
    ensures found != LookupFailed ==> found == NetNsOf(api.w, k, spec)
    ensures old(api.faults) == [] ==> api.faults == [] && found == NetNsOf(api.w, k, spec)
  {
    var got := api.Read();
    if spec.networkNamespaceName != "" {
      var named := FindByKey(api.w.netns, Key(k.ns, spec.networkNamespaceName));
      return if got && named.Some? then Present(named.value) else LookupFailed;
    }
    if !got {
      return LookupFailed;
    }
    var byName := FindByKey(api.w.netns, k);
    if byName.Some? {
      return Present(byName.value);
    }
    var listed := api.Read();
    if !listed {
      return LookupFailed;
    }
    var first := FirstInNamespace(api.w.netns, k.ns);
    found := if first.Some? then Present(first.value) else Absent;
  }

  method EnsureNetworkAttachmentDefinition(api: Api, r: Ref, vlan: int) returns (ok: bool)
    requires api.Valid()
    modifies api
    ensures api.Valid() && old(api.log) <= api.log
    ensures forall i :: |old(api.log)| <= i < |api.log| ==> api.log[i].CreateNAD?
    ensures api.w == old(api.w).(nads := api.w.nads) && Extends(old(api.w.nads), api.w.nads)
    ensures api.w.nads == old(api.w.nads) || api.w.nads == old(api.w.nads)[r := NAD(true, vlan)]
    ensures ok ==> r in api.w.nads
    ensures old(api.faults) == [] ==> api.faults == [] && ok
  {
    var got := api.Read();
    if got && r in api.w.nads {
      return true;
    }
    if !got {
      return false;
    }
    var reply := api.Write(CreateNAD(r, NAD(true, vlan)));
    ok := reply == Done || reply == Exists;
  }

  method GetOrCreateNetworkConfiguration(api: Api, k: Key, spec: MachineSpec, cluster: string) returns (network: Option<Network>)
    requires api.Valid()
    modifies api
    ensures api.Valid() && old(api.log) <= api.log
    ensures forall i :: |old(api.log)| <= i < |api.log| ==> api.log[i].CreateNAD?
    ensures api.w == old(api.w).(nads := api.w.nads) && Extends(old(api.w.nads), api.w.nads)
    ensures network.Some? ==> var a := AttachmentFor(NetNsOf(api.w, k, spec)); !a.NotReady? && network.value == NetworkFor(a)
    // a NAD that is made is the operator's and named for its own VLAN
    ensures forall r :: r in api.w.nads && r !in old(api.w.nads) ==>
              r == NADRef(cluster, k.ns, NADNameFor(api.w.nads[r].vlan)) && api.w.nads[r].managed
    ensures network.Some? && network.value.multus.Some? ==> NADRef(cluster, k.ns, network.value.multus.value) in api.w.nads
    ensures old(api.faults) == [] ==> api.faults == [] && (network.Some? <==> !AttachmentFor(NetNsOf(api.w, k, spec)).NotReady?)
  {
    var found := FindNetworkNamespace(api, k, spec);
    if found == LookupFailed {
      return None;
    }
    if found == Absent {
      return Some(Network("default", None));
    }
    var nn := found.nn;
    if !nn.phaseReady {
      return None;
    }
    var isStatic := nn.allocation.Some? && nn.allocation.value.isStatic;
    if nn.vlan <= 0 && !isStatic {
      return Some(Network("default", None));
    }
    var nadName := NADNameFor(nn.vlan);
    var ok := EnsureNetworkAttachmentDefinition(api, NADRef(cluster, k.ns, nadName), nn.vlan);
    if !ok {
      return None;
    }
    network := Some(Network(nadName, Some(nadName)));
  }

  // ---- cleanup ----

  /** A VM that still counts as a user of its networks. */
  predicate Uses(w: World, v: Ref, nad: Ref) {
    v in w.vms && SameNamespace(v, nad) && !w.vms[v].terminating && UsesNAD(w.vms[v], nad.key.name)
  }

  lemma UnusedNADMayGo(w: World, nad: Ref)
    requires forall v :: !Uses(w, v, nad)
    ensures NADUnused(w, nad)
  {
    forall v | v in w.vms && SameNamespace(v, nad) && UsesNAD(w.vms[v], nad.key.name)
      ensures w.vms[v].terminating
    {
      assert Uses(w, v, nad) == !w.vms[v].terminating;
    }
  }

  method IsVMUsingNAD(vm: VM, nad: string) returns (used: bool)
    ensures used <==> vm.template.Some? && exists n :: n in vm.template.value.networks && n.multus == Some(nad)
  {
    if vm.template.None? {
      return false;
    }
    var networks := vm.template.value.networks;
    for i := 0 to |networks|
      invariant forall j :: 0 <= j < i ==> networks[j].multus != Some(nad)
    {
      if networks[i].multus == Some(nad) {
        assert networks[i] in networks;
        return true;
      }
    }
    used := false;
  }

  lemma UsesNADMeans(vm: VM, nad: string)
    ensures UsesNAD(vm, nad) <==> vm.template.Some? && exists n :: n in vm.template.value.networks && n.multus == Some(nad)
  {
    if vm.template.Some? {
      var networks := vm.template.value.networks;
      if UsesNAD(vm, nad) {
        var i :| 0 <= i < |networks| && networks[i].multus == Some(nad);
        assert networks[i] in networks;
      }
    }
  }

  method InUse(api: Api, vms: seq<Ref>, nad: Ref, except: Option<string>) returns (used: bool)
    requires forall i :: 0 <= i < |vms| ==> vms[i] in api.w.vms && SameNamespace(vms[i], nad)
    requires forall v :: v in api.w.vms && SameNamespace(v, nad) ==> v in vms
    ensures used <==> exists v :: Uses(api.w, v, nad) && except != Some(v.key.name)
  {
    for i := 0 to |vms|
      invariant forall j :: 0 <= j < i ==> !(Uses(api.w, vms[j], nad) && except != Some(vms[j].key.name))
    {
      var vm := api.w.vms[vms[i]];
      if except == Some(vms[i].key.name) || vm.terminating {
        continue;
      }
      var using := IsVMUsingNAD(vm, nad.key.name);
      UsesNADMeans(vm, nad.key.name);
      if using {
        assert Uses(api.w, vms[i], nad);
        return true;
      }
    }
    used := false;
  }

  method VMsInNamespace(api: Api, cluster: string, ns: string) returns (vms: seq<Ref>)
    ensures forall i :: 0 <= i < |vms| ==> vms[i] in api.w.vms && vms[i].cluster == cluster && vms[i].key.ns == ns
    ensures forall v :: v in api.w.vms && v.cluster == cluster && v.key.ns == ns ==> v in vms
  {
    vms := api.Items(set v | v in api.w.vms && v.cluster == cluster && v.key.ns == ns);
    forall i | 0 <= i < |vms| ensures vms[i] in api.w.vms && vms[i].cluster == cluster && vms[i].key.ns == ns {
      assert vms[i] in vms;
    }
  }

  /** Deletes the NAD before the VM is, unless another VM that is not going away still uses it. */
  method CleanupNADIfUnusedByOtherVMs(api: Api, nad: Ref, vmBeingDeleted: string)
    requires api.Valid() && Deleting(api.w, Key(nad.key.ns, vmBeingDeleted))
    modifies api
    ensures api.Valid() && old(api.log) <= api.log
    ensures forall i :: |old(api.log)| <= i < |api.log| ==> api.log[i] == DeleteNAD(nad)
    ensures api.w == old(api.w).(nads := api.w.nads) && Pruned(old(api.w.nads), api.w.nads, {nad})
    ensures (exists v :: Uses(old(api.w), v, nad) && v.key.name != vmBeingDeleted) ==> api.w == old(api.w)
    ensures old(api.faults) == [] ==> api.faults == []
    ensures old(api.faults) == [] && (forall v :: Uses(old(api.w), v, nad) ==> v.key.name == vmBeingDeleted) ==> nad !in api.w.nads
  {
    hide Api.Valid;
    var got := api.Read();
    if !got || nad !in api.w.nads {
      return;
    }
    var listed := api.Read();
    if !listed {
      return;
    }
    var vms := VMsInNamespace(api, nad.cluster, nad.key.ns);
    var used := InUse(api, vms, nad, Some(vmBeingDeleted));
    if used {
      return;
    }
    assert NADUnused(api.w, nad) by {
      forall v | v in api.w.vms && SameNamespace(v, nad) && UsesNAD(api.w.vms[v], nad.key.name)
        ensures api.w.vms[v].terminating || Deleting(api.w, v.key)
      {
        if !api.w.vms[v].terminating {
          assert Uses(api.w, v, nad);
          assert v.key == Key(nad.key.ns, vmBeingDeleted);
        }
      }
    }
    var _ := api.Write(DeleteNAD(nad));
  }

  /** Deletes the NAD once no VM that is not going away uses it. */
  method CleanupNetworkAttachmentDefinition(api: Api, nad: Ref)
    requires api.Valid()
    modifies api
    ensures api.Valid() && old(api.log) <= api.log
    ensures forall i :: |old(api.log)| <= i < |api.log| ==> api.log[i] == DeleteNAD(nad)
    ensures api.w == old(api.w).(nads := api.w.nads) && Pruned(old(api.w.nads), api.w.nads, {nad})
    ensures (exists v :: Uses(old(api.w), v, nad)) ==> api.w == old(api.w)
    ensures old(api.faults) == [] ==> api.faults == []
    ensures old(api.faults) == [] && (forall v :: !Uses(old(api.w), v, nad)) ==> nad !in api.w.nads
  {
    hide Api.Valid;
    var got := api.Read();
    if !got || nad !in api.w.nads {
      return;
    }
    var listed := api.Read();
    if !listed {
      return;
    }
    var vms := VMsInNamespace(api, nad.cluster, nad.key.ns);
    var used := InUse(api, vms, nad, None);
    if used {
      return;
    }
    UnusedNADMayGo(api.w, nad);
    var _ := api.Write(DeleteNAD(nad));
  }

  /** A managed NAD of the namespace that no live VM uses. */
  ghost predicate Orphaned(w: World, cluster: string, ns: string, r: Ref) {
    r in w.nads && w.nads[r].managed && r.cluster == cluster && r.key.ns == ns && forall v :: !Uses(w, v, r)
  }

  method DeleteIfOrphaned(api: Api, nad: Ref, vms: seq<Ref>)
    requires api.Valid()
    requires forall i :: 0 <= i < |vms| ==> vms[i] in api.w.vms && SameNamespace(vms[i], nad)
    requires forall v :: v in api.w.vms && SameNamespace(v, nad) ==> v in vms
    modifies api
    ensures api.Valid() && old(api.log) <= api.log
    ensures forall i :: |old(api.log)| <= i < |api.log| ==> api.log[i] == DeleteNAD(nad)
    ensures api.w == old(api.w).(nads := api.w.nads) && Pruned(old(api.w.nads), api.w.nads, {nad})
    ensures (exists v :: Uses(old(api.w), v, nad)) ==> api.w == old(api.w)
    ensures old(api.faults) == [] ==> api.faults == []
    ensures old(api.faults) == [] && (forall v :: !Uses(old(api.w), v, nad)) ==> nad !in api.w.nads
  {
    hide Api.Valid;
    var nadInUse := InUse(api, vms, nad, None);
    if !nadInUse {
      UnusedNADMayGo(api.w, nad);
      var _ := api.Write(DeleteNAD(nad));
    }
  }

  lemma UsesDependOnVMs(w: World, w': World, v: Ref, nad: Ref)
    requires w.vms == w'.vms
    ensures Uses(w, v, nad) == Uses(w', v, nad)
  {
  }

  /** Only orphaned NADs are gone. */
  ghost predicate Swept(w: World, nads: map<Ref, NAD>, cluster: string, ns: string) {
    && (forall r :: r in nads ==> r in w.nads && nads[r] == w.nads[r])
    && (forall r :: r in w.nads && !Orphaned(w, cluster, ns, r) ==> r in nads)
  }

  lemma SweepStep(w0: World, w: World, w': World, cluster: string, ns: string, nad: Ref)
    requires Swept(w0, w.nads, cluster, ns) && w == w0.(nads := w.nads) && w' == w.(nads := w'.nads)
    requires nad in w0.nads && w0.nads[nad].managed && nad.cluster == cluster && nad.key.ns == ns
    requires Pruned(w.nads, w'.nads, {nad}) && ((exists v :: Uses(w, v, nad)) ==> w' == w)
    ensures Swept(w0, w'.nads, cluster, ns)
    ensures (forall v :: !Uses(w, v, nad)) <==> Orphaned(w0, cluster, ns, nad)
    ensures forall r :: r in w'.nads ==> r in w.nads
  {
    forall v ensures Uses(w, v, nad) == Uses(w0, v, nad) { UsesDependOnVMs(w, w0, v, nad); }
    hide Uses;
  }

  /** A failure-free sweep deletes exactly the orphaned NADs; no sweep deletes a NAD a live VM uses. */
  method CleanupOrphanedNADs(api: Api, cluster: string, ns: string)
    requires api.Valid()
    modifies api
    ensures api.Valid() && old(api.log) <= api.log
    ensures forall i :: |old(api.log)| <= i < |api.log| ==> api.log[i].DeleteNAD?
    ensures api.w == old(api.w).(nads := api.w.nads)
    ensures forall r :: r in api.w.nads ==> r in old(api.w.nads) && api.w.nads[r] == old(api.w.nads)[r]
    ensures forall r :: r in old(api.w.nads) && !Orphaned(old(api.w), cluster, ns, r) ==> r in api.w.nads
    ensures old(api.faults) == [] ==> api.faults == [] && forall r :: Orphaned(old(api.w), cluster, ns, r) ==> r !in api.w.nads
  {
    hide Api.Valid, Inv, Uses, Orphaned;
    var listed := api.Read();
    if !listed {
      return;
    }
    var managed := set r | r in api.w.nads && api.w.nads[r].managed && r.cluster == cluster && r.key.ns == ns;
    var nads := api.Items(managed);
    OrphanedIsManaged(api.w, cluster, ns);
    assert forall r :: Orphaned(api.w, cluster, ns, r) ==> r in managed && r in nads;
    if |nads| == 0 {
      return;
    }
    var listedVMs := api.Read();
    if !listedVMs {
      return;
    }
    var vms := VMsInNamespace(api, cluster, ns);
    SweepNADs(api, cluster, ns, nads, vms);
    assert old(api.faults) == [] ==> forall r :: Orphaned(old(api.w), cluster, ns, r) ==> r !in api.w.nads;
  }

  /** `vms` are the VMs of the namespace. */
  ghost predicate ListsVMs(w: World, vms: seq<Ref>, cluster: string, ns: string) {
    && (forall i :: 0 <= i < |vms| ==> vms[i] in w.vms && vms[i].cluster == cluster && vms[i].key.ns == ns)
    && (forall v :: v in w.vms && v.cluster == cluster && v.key.ns == ns ==> v in vms)
  }

  /** Of the first `n` listed NADs the orphaned ones are gone. */
  ghost predicate GoneUpTo(w: World, now: map<Ref, NAD>, nads: seq<Ref>, n: nat, cluster: string, ns: string) {
    forall j :: 0 <= j < n && j < |nads| && Orphaned(w, cluster, ns, nads[j]) ==> nads[j] !in now
  }

  lemma GoneStep(w: World, before: map<Ref, NAD>, after: map<Ref, NAD>, nads: seq<Ref>, n: nat, cluster: string, ns: string)
    requires n < |nads| && GoneUpTo(w, before, nads, n, cluster, ns)
    requires (forall r :: r in after ==> r in before) && (Orphaned(w, cluster, ns, nads[n]) ==> nads[n] !in after)
    ensures GoneUpTo(w, after, nads, n + 1, cluster, ns)
  {
    hide Orphaned;
  }

  /** The loop over the listed NADs, each against the listed VMs. */
  method SweepNADs(api: Api, cluster: string, ns: string, nads: seq<Ref>, vms: seq<Ref>)
    requires api.Valid() && ListsVMs(api.w, vms, cluster, ns)
    requires forall r :: r in nads ==> r in api.w.nads && api.w.nads[r].managed && r.cluster == cluster && r.key.ns == ns
    modifies api
    ensures api.Valid() && old(api.log) <= api.log
    ensures forall i :: |old(api.log)| <= i < |api.log| ==> api.log[i].DeleteNAD?
    ensures api.w == old(api.w).(nads := api.w.nads) && Swept(old(api.w), api.w.nads, cluster, ns)
    ensures old(api.faults) == [] ==> api.faults == [] && GoneUpTo(old(api.w), api.w.nads, nads, |nads|, cluster, ns)
  {
    ghost var w0 := api.w;
    assert Swept(w0, w0.nads, cluster, ns);
    assert GoneUpTo(w0, w0.nads, nads, 0, cluster, ns);
    hide Api.Valid, Inv, Swept, GoneUpTo, ListsVMs, Orphaned;
    for i := 0 to |nads|
      invariant api.Valid() && old(api.log) <= api.log
      invariant forall j :: |old(api.log)| <= j < |api.log| ==> api.log[j].DeleteNAD?
      invariant api.w == w0.(nads := api.w.nads) && Swept(w0, api.w.nads, cluster, ns)
      invariant old(api.faults) == [] ==> api.faults == [] && GoneUpTo(w0, api.w.nads, nads, i, cluster, ns)
    {
      assert nads[i] in nads;
      ghost var before := api.w.nads;
      SweepOne(api, cluster, ns, nads[i], vms, w0);
      if old(api.faults) == [] { GoneStep(w0, before, api.w.nads, nads, i, cluster, ns); }
    }
  }

  method SweepOne(api: Api, cluster: string, ns: string, nad: Ref, vms: seq<Ref>, ghost w0: World)
    requires api.Valid() && api.w == w0.(nads := api.w.nads) && Swept(w0, api.w.nads, cluster, ns) && ListsVMs(w0, vms, cluster, ns)
    requires nad in w0.nads && w0.nads[nad].managed && nad.cluster == cluster && nad.key.ns == ns
    modifies api
    ensures api.Valid() && old(api.log) <= api.log
    ensures forall i :: |old(api.log)| <= i < |api.log| ==> api.log[i].DeleteNAD?
    ensures api.w == w0.(nads := api.w.nads) && Swept(w0, api.w.nads, cluster, ns)
    ensures forall r :: r in api.w.nads ==> r in old(api.w.nads)
    ensures old(api.faults) == [] ==> api.faults == [] && (Orphaned(w0, cluster, ns, nad) ==> nad !in api.w.nads)
  {
    hide Api.Valid, Inv, Uses, Pruned, Orphaned, Swept;
    ghost var before := api.w;
    DeleteIfOrphaned(api, nad, vms);
    SweepStep(w0, before, api.w, cluster, ns, nad);
  }

  lemma OrphanedIsManaged(w: World, cluster: string, ns: string)
    ensures forall r :: Orphaned(w, cluster, ns, r) ==> r in w.nads && w.nads[r].managed && r.cluster == cluster && r.key.ns == ns
  {
  }
}
