/** CreateVirtualMachine and buildVMSpec of internal/machine/vm/vm_manager.go. */
module VmManager {
  import opened Wrappers
  import opened Objects
  import opened Worlds
  import opened Fleet
  import opened Apis
  import opened VmSpec
  import NetworkManager
  import NetworkConfig
  import SharedISO
  import IsoNames
  import opened CloudInitSources
  import CloudInitResolver

  /** What a pass finds outside the modelled stores. */
  datatype Prereqs = Prereqs(
    storageClass: bool,              // STORAGE_CLASS_NAME is set
    hasDefaultClass: bool,           // the cluster has a default StorageClass
    resources: bool,                 // calculateResourceRequirements succeeds
    generatedMac: Option<string>)    // what the MAC generator would return

  predicate GeneratesMac(p: Prereqs) {
    p.generatedMac.Some? ==> p.generatedMac.value != ""
  }

  function BuildVM(spec: MachineSpec, vmName: string, shared: bool, ci: Option<CloudInitBundle>, network: Network, mac: string): VM {
    VM(true, true, false, false,
       Some(Template(AllDisks(spec, ci), AllVolumes(spec, vmName, shared, ci), [network],
                     [Interface(network.name, NICBootOrder(spec), mac)])),
       if BootsFromISO(spec) && !shared then [ISOResourceName(vmName)] else [])
  }

  /** The only CDROM claim of a new VM is its shared boot ISO. */
  lemma CdromClaimOf(spec: MachineSpec, vmName: string, shared: bool, ci: Option<CloudInitBundle>, claim: string)
    requires AvoidsGeneratedNames(spec.disks)
    requires CdromClaims(AllVolumes(spec, vmName, shared, ci), claim)
    ensures BootsFromISO(spec) && shared && claim == IsoNames.SharedISOResourceName(spec.os)
  {
    var data := DataVolumes(spec.disks, PvcNames(vmName, spec.disks));
    var v := Volume(CDROM_VOLUME_NAME, PVCSource(claim));
    forall i | 0 <= i < |data| ensures data[i] != v {
      GeneratedNameIsPlain(i);
      assert DEFAULT_DISK_NAME != CDROM_VOLUME_NAME;
    }
    assert v !in data;
  }

  lemma HoldsBundle(spec: MachineSpec, vmName: string, shared: bool, bundle: CloudInitBundle)
    ensures Volume(CLOUD_INIT_DISK_NAME, CloudInitNoCloud(bundle.userData, bundle.networkData)) in AllVolumes(spec, vmName, shared, Some(bundle))
  {
  }

  lemma NetworkNamesArePlain(a: NetworkManager.Attachment)
    requires !a.NotReady?
    ensures PlainName(NetworkManager.NetworkFor(a).name)
  {
    var name := NetworkManager.NetworkFor(a).name;
    assert name[0] in {'d', 'v', 'b'};
  }

  /** The PVCs of these names exist. */
  predicate ClaimsReady(w: World, k: Key, cluster: string, names: seq<string>) {
    forall name :: name in names ==> Ref(cluster, Key(k.ns, name)) in w.pvcs
  }

  /** What a new VM mounts beside its cidata: its disks' PVCs, and its boot ISO as a PVC or as a DataVolume it brings. */
  lemma NewVMMounts(w: World, r: Ref, spec: MachineSpec, ci: Option<CloudInitBundle>, network: Network, mac: string)
    requires ClaimsReady(w, r.key, r.cluster, PvcNames(r.key.name, spec.disks))
    ensures var vm := BuildVM(spec, r.key.name, w.shared, ci, network, mac); MountsExist(w, r, vm) && BringsItsDataVolumes(vm)
  {
    var vm := BuildVM(spec, r.key.name, w.shared, ci, network, mac);
    var names, volumes := PvcNames(r.key.name, spec.disks), vm.template.value.volumes;
    VolumeKinds(spec, r.key.name, w.shared, ci);
    forall i | 0 <= i < |names| ensures names[i] in names { }
    hide PvcNames, AllVolumes, AllDisks;
    if BootsFromISO(spec) && !w.shared {
      assert volumes[|names|].source == DataVolumeSource(ISOResourceName(r.key.name));
    }
  }

  lemma VolumeKinds(spec: MachineSpec, vmName: string, shared: bool, ci: Option<CloudInitBundle>)
    ensures var names, volumes := PvcNames(vmName, spec.disks), AllVolumes(spec, vmName, shared, ci);
            && |names| <= |volumes|
            && (forall i :: 0 <= i < |names| ==> volumes[i].source == PVCSource(names[i]))
            && (forall i :: |names| <= i < |volumes| ==>
                  (BootsFromISO(spec) && i == |names| && volumes[i] == ISOVolume(spec, vmName, shared)) || volumes[i].source.CloudInitNoCloud?)
            && (BootsFromISO(spec) ==> |names| < |volumes| && volumes[|names|] == ISOVolume(spec, vmName, shared))
  {
    DisksPairWithVolumes(spec, vmName, shared, ci);
    assert |DataVolumes(spec.disks, PvcNames(vmName, spec.disks))| == |PvcNames(vmName, spec.disks)|;
  }

  lemma NewVMIsLegal(w: World, r: Ref, spec: MachineSpec, network: Network, mac: string)
    requires Anchors(w, r.key, r.cluster) && !w.machines[r.key].deleting && AvoidsGeneratedNames(spec.disks)
    requires spec == w.machines[r.key].spec && Available(CloudInitOf(w, r.key, spec)) && PlainName(network.name)
    requires network.multus.Some? ==> Ref(r.cluster, Key(r.key.ns, network.multus.value)) in w.nads
    requires w.shared && BootsFromISO(spec) ==> ISOReady(w, SharedISO.ISORef(r.cluster, r.key, spec.os))
    requires r.key in w.ncs && MacFor(w.ncs[r.key].ifaces, network.name) == mac && mac != ""
    requires (r.cluster, r.key.ns) in w.namespaces && ClaimsReady(w, r.key, r.cluster, PvcNames(r.key.name, spec.disks))
    ensures MayCreateVM(w, r, BuildVM(spec, r.key.name, w.shared, BundleOf(CloudInitOf(w, r.key, spec)), network, mac))
  {
    var ci := BundleOf(CloudInitOf(w, r.key, spec));
    if ci.Some? { HoldsBundle(spec, r.key.name, w.shared, ci.value); }
    NewVMMounts(w, r, spec, ci, network, mac);
    hide AllDisks, AllVolumes, IsoNames.SharedISOResourceName, MacFor, CloudInitOf, NetworkDataAgrees, PlainName, MountsExist, BringsItsDataVolumes;
    ResolvedAgrees(w, r.key, BuildVM(spec, r.key.name, w.shared, ci, network, mac));
    var volumes := AllVolumes(spec, r.key.name, w.shared, ci);
    forall claim | w.shared && CdromClaims(volumes, claim) ensures ISOReady(w, Ref(r.cluster, Key(r.key.ns, claim))) {
      CdromClaimOf(spec, r.key.name, w.shared, ci, claim);
    }
  }

  datatype Creation = Created(vm: VM) | Waits | Fails

  lemma SameVMsOwned(w: World, w': World, k: Key)
    requires w.vms == w'.vms && NoOwnedVM(w, k)
    ensures NoOwnedVM(w', k)
  {
  }

  /** Store the MAC the VM will carry; `Some(mac)` when the NetworkConfiguration has it. */
  method SettleMac(api: Api, k: Key, spec: MachineSpec, network: string, generated: Option<string>) returns (mac: Option<string>)
    requires api.Valid() && NoOwnedVM(api.w, k) && k in api.w.machines && !api.w.machines[k].deleting
    requires generated.Some? ==> generated.value != ""
    modifies api
    ensures api.Valid() && old(api.log) <= api.log
    ensures forall i :: |old(api.log)| <= i < |api.log| ==> api.log[i].CreateNC? || api.log[i].UpdateNC?
    ensures NetworkConfig.OnlyNC(old(api.w), api.w, k)
    ensures NCsKept(old(api.w.ncs), api.w.ncs)
    ensures mac.Some? ==> mac.value != "" && k in api.w.ncs && MacFor(api.w.ncs[k].ifaces, network) == mac.value
    ensures mac.Some? ==> NetworkConfig.MacSettled(api.w, k, network)
    ensures NetworkConfig.MacSettled(old(api.w), k, network) ==> NetworkConfig.SameIfaces(old(api.w), api.w, k)
    ensures mac.Some? && NetworkConfig.StoredMac(old(api.w), k, network) != "" ==> mac.value == NetworkConfig.StoredMac(old(api.w), k, network)
    ensures old(api.faults) == [] ==>
              api.faults == [] && (mac.Some? <==> NetworkConfig.StoredMac(old(api.w), k, network) != "" || generated.Some?)
  {
    hide Api.Valid, MacFor, NoOwnedVM, OnlyFills, NetworkConfig.Persisted, NetworkConfig.Wanted, NetworkConfig.NewNC;
    ghost var w0 := api.w;
    NetworkConfig.NothingKept(w0);
    mac := NetworkConfig.ResolveOrGenerateMAC(api, k, network, generated);
    if mac.None? {
      return;
    }
    var ok := NetworkConfig.PersistMacAddressesToNetworkConfiguration(api, k, spec, mac.value, network);
    NetworkConfig.PersistKeepsNCs(w0, api.w, k, network, mac.value, NetworkConfig.ProviderOf(w0, k, spec));
    if NetworkConfig.MacSettled(w0, k, network) {
      NetworkConfig.SettledIsSame(w0, api.w, k, network, NetworkConfig.ProviderOf(w0, k, spec));
    }
    if !ok {
      return None;
    }
  }

  /** The attachment of a new VM: a network whose NAD is present and the MAC its NetworkConfiguration stores. */
  datatype Nic = Nic(network: Network, mac: string)

  ghost predicate NicReady(w: World, k: Key, cluster: string, nic: Nic) {
    && (nic.network.multus.Some? ==> Ref(cluster, Key(k.ns, nic.network.multus.value)) in w.nads)
    && nic.mac != "" && k in w.ncs && MacFor(w.ncs[k].ifaces, nic.network.name) == nic.mac && PlainName(nic.network.name)
  }

  predicate IsNetworkOf(w: World, k: Key, spec: MachineSpec, network: Network) {
    var a := NetworkManager.AttachmentFor(NetworkManager.NetNsOf(w, k, spec));
    !a.NotReady? && network == NetworkManager.NetworkFor(a)
  }

  /** The VM of a Machine: its disks and volumes, its network, and the MAC and cidata stored for it by then. */
  ghost predicate IsVMOf(w0: World, w: World, k: Key, spec: MachineSpec, vm: VM) {
    exists network ::
      IsNetworkOf(w0, k, spec, network) &&
      vm == BuildVM(spec, k.name, w0.shared, BundleOf(CloudInitOf(w, k, spec)), network, NetworkConfig.StoredMac(w, k, network.name))
  }

  /** Whether a failure-free attempt gets a network and a MAC. */
  predicate CanAttach(w: World, k: Key, spec: MachineSpec, generated: Option<string>) {
    var a := NetworkManager.AttachmentFor(NetworkManager.NetNsOf(w, k, spec));
    !a.NotReady? && (NetworkConfig.StoredMac(w, k, NetworkManager.NetworkFor(a).name) != "" || generated.Some?)
  }

  lemma CanAttachDependsOn(w: World, w': World, k: Key, spec: MachineSpec, generated: Option<string>)
    requires w'.netns == w.netns && (k in w.ncs <==> k in w'.ncs) && (k in w.ncs ==> w'.ncs[k].ifaces == w.ncs[k].ifaces)
    ensures CanAttach(w', k, spec, generated) == CanAttach(w, k, spec, generated)
  {
  }

  lemma SameNetNs(w: World, w': World, k: Key, spec: MachineSpec)
    requires w'.netns == w.netns
    ensures NetworkManager.NetNsOf(w', k, spec) == NetworkManager.NetNsOf(w, k, spec)
  {
  }

  method Attach(api: Api, k: Key, spec: MachineSpec, cluster: string, generated: Option<string>) returns (nic: Option<Nic>)
    requires api.Valid() && NoOwnedVM(api.w, k) && k in api.w.machines && !api.w.machines[k].deleting
    requires generated.Some? ==> generated.value != ""
    modifies api
    ensures api.Valid() && old(api.log) <= api.log
    ensures forall i :: |old(api.log)| <= i < |api.log| ==> api.log[i].CreateNAD? || api.log[i].CreateNC? || api.log[i].UpdateNC?
    ensures Grows(old(api.w), api.w) && api.w == old(api.w).(nads := api.w.nads, ncs := api.w.ncs)
    ensures nic.Some? ==> NicReady(api.w, k, cluster, nic.value) && IsNetworkOf(old(api.w), k, spec, nic.value.network)
    ensures nic.Some? ==> MacReady(api.w, k, spec)
    ensures MacReady(old(api.w), k, spec) ==> NetworkConfig.SameIfaces(old(api.w), api.w, k)
    ensures old(api.faults) == [] ==> api.faults == [] && (nic.Some? <==> CanAttach(old(api.w), k, spec, generated))
  {
    hide Api.Valid, Inv, NoOwnedVM, Grows, Extends, NCsKept, IsNetworkOf, NicReady, MacReady, CanAttach, NetworkConfig.MacSettled,
         NetworkManager.NetNsOf, NetworkManager.AttachmentFor, NetworkManager.NetworkFor, NetworkConfig.OnlyNC, MacFor, NetworkConfig.StoredMac, NetworkConfig.SameIfaces;
    ghost var w0 := api.w;
    var network := NetworkManager.GetOrCreateNetworkConfiguration(api, k, spec, cluster);
    ghost var w1 := api.w;
    NetworkFound(w0, w1, k, spec, network, generated);
    if network.None? {
      return None;
    }
    SameVMsOwned(w0, w1, k);
    var mac := SettleMac(api, k, spec, network.value.name, generated);
    MacStored(w0, w1, api.w, k, spec, cluster, network.value, mac);
    if mac.None? {
      return None;
    }
    nic := Some(Nic(network.value, mac.value));
  }

  lemma NetworkFound(w: World, w': World, k: Key, spec: MachineSpec, network: Option<Network>, generated: Option<string>)
    requires w' == w.(nads := w'.nads) && Extends(w.nads, w'.nads)
    requires network.Some? ==> var a := NetworkManager.AttachmentFor(NetworkManager.NetNsOf(w', k, spec)); !a.NotReady? && network.value == NetworkManager.NetworkFor(a)
    ensures Grows(w, w')
    ensures NetworkConfig.SameIfaces(w, w', k)
    ensures network.Some? ==> (MacReady(w, k, spec) <==> NetworkConfig.MacSettled(w', k, network.value.name))
    ensures network.Some? ==> IsNetworkOf(w, k, spec, network.value) && PlainName(network.value.name)
    ensures network.Some? ==> (CanAttach(w, k, spec, generated) <==> NetworkConfig.StoredMac(w', k, network.value.name) != "" || generated.Some?)
    ensures NetworkManager.AttachmentFor(NetworkManager.NetNsOf(w', k, spec)).NotReady? ==> !CanAttach(w, k, spec, generated)
  {
    NetworkConfig.NothingKept(w);
    GrowsByAdding(w, w');
    SameNetNs(w, w', k, spec);
    var a := NetworkManager.AttachmentFor(NetworkManager.NetNsOf(w, k, spec));
    if !a.NotReady? { NetworkNamesArePlain(a); }
    hide PlainName, Grows, NetworkManager.NetNsOf, NetworkConfig.Persisted, MacFor;
  }

  lemma MacStored(w0: World, w1: World, w2: World, k: Key, spec: MachineSpec, cluster: string, network: Network, mac: Option<string>)
    requires w1 == w0.(nads := w1.nads) && Grows(w0, w1) && NetworkConfig.OnlyNC(w1, w2, k) && NCsKept(w1.ncs, w2.ncs)
    requires IsNetworkOf(w0, k, spec, network) && PlainName(network.name)
    requires network.multus.Some? ==> Ref(cluster, Key(k.ns, network.multus.value)) in w1.nads
    requires NetworkConfig.SameIfaces(w0, w1, k)
    requires NetworkConfig.MacSettled(w1, k, network.name) ==> NetworkConfig.SameIfaces(w1, w2, k)
    requires mac.Some? ==> mac.value != "" && k in w2.ncs && MacFor(w2.ncs[k].ifaces, network.name) == mac.value
                           && NetworkConfig.MacSettled(w2, k, network.name)
    ensures NetworkConfig.MacSettled(w1, k, network.name) ==> NetworkConfig.SameIfaces(w0, w2, k)
    ensures Grows(w0, w2) && w2 == w0.(nads := w2.nads, ncs := w2.ncs)
    ensures mac.Some? ==> NicReady(w2, k, cluster, Nic(network, mac.value)) && MacReady(w2, k, spec)
  {
    hide NCsKept, Grows, MacFor, NetworkConfig.MacSettled, PlainName;
    GrowsByNC(w1, w2);
    GrowsTransitive(w0, w1, w2);
    if mac.Some? { MacReadyFor(w0, w2, k, spec, network); }
  }

  /** The MAC of the Machine's network interface is on its NetworkConfiguration. */
  predicate MacReady(w: World, k: Key, spec: MachineSpec) {
    var a := NetworkManager.AttachmentFor(NetworkManager.NetNsOf(w, k, spec));
    !a.NotReady? && NetworkConfig.MacSettled(w, k, NetworkManager.NetworkFor(a).name)
  }

  /** No payload is undecodable, and a synthesized network-config lacks at most this interface's MAC. */
  predicate CidataPossible(w: World, k: Key, spec: MachineSpec) {
    match spec.cloudInit
    case None => true
    case Some(ci) =>
      Decodes(ci.userData) && Decodes(ci.networkData) &&
      (Synthesizes(w, k, spec) && k in w.ncs ==>
        var a := NetworkManager.AttachmentFor(NetworkManager.NetNsOf(w, k, spec));
        !a.NotReady? && Fillable(w.ncs[k].ifaces, NetworkManager.NetworkFor(a).name))
  }

  /** With the MAC stored, only sources and addresses can still be missing. */
  lemma StoredMacIsCompletable(w: World, k: Key, spec: MachineSpec)
    requires CidataPossible(w, k, spec) && MacReady(w, k, spec)
    ensures Completable(w, k, spec)
  {
    if Synthesizes(w, k, spec) {
      var name := NetworkManager.NetworkFor(NetworkManager.AttachmentFor(NetworkManager.NetNsOf(w, k, spec))).name;
      NetworkConfig.PersistedFills(w.ncs[k].ifaces, name, NetworkConfig.StoredMac(w, k, name), name);
    }
    hide MacFor, NetworkConfig.Persisted, Fillable;
  }

  lemma CidataPossibleDependsOn(w: World, w': World, k: Key, spec: MachineSpec)
    requires CidataPossible(w, k, spec) && w'.netns == w.netns && NCsKept(w.ncs, w'.ncs)
    requires !NetworkManager.AttachmentFor(NetworkManager.NetNsOf(w, k, spec)).NotReady?
    ensures CidataPossible(w', k, spec)
  {
    SameNetNs(w, w', k, spec);
    if k in w.ncs { assert OnlyFills(w.ncs[k].ifaces, w'.ncs[k].ifaces); }
    if k !in w.ncs && k in w'.ncs {
      AllMacsFillable(w'.ncs[k].ifaces, NetworkManager.NetworkFor(NetworkManager.AttachmentFor(NetworkManager.NetNsOf(w, k, spec))).name);
    }
    hide Fillable, NetworkManager.NetNsOf, AllMacs, MacFor;
  }

  lemma {:induction false} AllMacsFillable(ifaces: seq<Iface>, name: string)
    requires AllMacs(ifaces)
    ensures Fillable(ifaces, name)
  {
    if ifaces != [] && ifaces[0].name != name { AllMacsFillable(ifaces[1..], name); }
  }

  lemma MacReadyFor(w: World, w': World, k: Key, spec: MachineSpec, network: Network)
    requires IsNetworkOf(w, k, spec, network) && w'.netns == w.netns && NetworkConfig.MacSettled(w', k, network.name)
    ensures MacReady(w', k, spec)
  {
    hide NetworkConfig.MacSettled;
  }

  lemma MacReadyDependsOn(w: World, w': World, k: Key, spec: MachineSpec)
    requires w'.netns == w.netns && (k in w.ncs <==> k in w'.ncs) && (k in w.ncs ==> w'.ncs[k].ifaces == w.ncs[k].ifaces)
    ensures MacReady(w', k, spec) == MacReady(w, k, spec)
  {
  }

  /**
    Creates the VM after its prerequisites: network, stored MAC, cloud-init. Failing or waiting loses nothing
    that earlier steps or passes persisted; the MAC is stored before its address is waited for.
  */
  method CreateVirtualMachine(api: Api, k: Key, spec: MachineSpec, cluster: string, pvcNames: seq<string>, p: Prereqs)
      returns (result: Creation)
    requires api.Valid() && Anchors(api.w, k, cluster) && !Deleting(api.w, k) && NoOwnedVM(api.w, k)
    requires spec == api.w.machines[k].spec
    requires AvoidsGeneratedNames(spec.disks) && GeneratesMac(p) && pvcNames == PvcNames(k.name, spec.disks)
    requires Ref(cluster, k) !in api.w.vms
    requires api.w.shared && BootsFromISO(spec) ==> ISOReady(api.w, SharedISO.ISORef(cluster, k, spec.os))
    requires (cluster, k.ns) in api.w.namespaces && ClaimsReady(api.w, k, cluster, PvcNames(k.name, spec.disks))
    modifies api
    ensures api.Valid() && old(api.log) <= api.log
    ensures forall i :: |old(api.log)| <= i < |api.log| ==>
              api.log[i].CreateNAD? || api.log[i].CreateNC? || api.log[i].UpdateNC? || api.log[i].CreateVM?
    ensures Grows(old(api.w), api.w)
    ensures result.Created? ==> Ref(cluster, k) in api.w.vms && api.w.vms[Ref(cluster, k)] == result.vm
    ensures forall r :: r in api.w.vms && r !in old(api.w.vms) ==> r == Ref(cluster, k) && IsVMOf(old(api.w), api.w, k, spec, api.w.vms[r])
    ensures MacReady(old(api.w), k, spec) ==> NetworkConfig.SameIfaces(old(api.w), api.w, k)
    ensures old(api.faults) == [] ==> api.faults == []
    ensures old(api.faults) == [] && p.resources && CanAttach(old(api.w), k, spec, p.generatedMac) ==>
              MacReady(api.w, k, spec) && (result.Created? <==> Available(CloudInitOf(api.w, k, spec)))
    ensures old(api.faults) == [] && !(p.resources && CanAttach(old(api.w), k, spec, p.generatedMac)) ==> !result.Created?
  {
    hide Api.Valid, MacFor, NoOwnedVM, AllDisks, AllVolumes, IsoNames.SharedISOResourceName, PvcNames, Grows, CanAttach, IsVMOf, IsNetworkOf, BuildVM, MacReady, CloudInitOf, NicReady, Available, Inv, SharedISO.ISORef, Extends, ClaimsReady;
    ghost var w0 := api.w;
    assert Grows(w0, w0) by { NetworkConfig.NothingKept(w0); GrowsByAdding(w0, w0); }
    var disks, volumes := AssembleDisks(spec, k.name, pvcNames, api.w.shared);
    if !p.resources {
      return Fails;
    }
    var nic := Attach(api, k, spec, cluster, p.generatedMac);
    if nic.None? {
      return Fails;
    }
    ghost var w1 := api.w;
    ClaimsStayReady(w0, w1, k, cluster, PvcNames(k.name, spec.disks));
    result := CreateAttached(api, k, spec, cluster, disks, volumes, nic.value);
    CreationGrows(w0, w1, api.w, k, spec);
    SubmittedIsVMOf(w0, w1, api.w, k, spec, cluster, nic.value);
  }

  lemma ClaimsStayReady(w: World, w': World, k: Key, cluster: string, names: seq<string>)
    requires ClaimsReady(w, k, cluster, names) && forall r :: r in w.pvcs ==> r in w'.pvcs
    ensures ClaimsReady(w', k, cluster, names)
  {
  }

  lemma KeepsAll<K, V>(m: map<K, V>)
    ensures Extends(m, m)
  {
  }

  lemma CreationGrows(w0: World, w1: World, w: World, k: Key, spec: MachineSpec)
    requires Grows(w0, w1) && w == w1.(vms := w.vms) && Extends(w1.vms, w.vms)
    ensures Grows(w0, w) && MacReady(w, k, spec) == MacReady(w1, k, spec)
  {
    NetworkConfig.NothingKept(w1);
    GrowsByAdding(w1, w);
    GrowsTransitive(w0, w1, w);
    MacReadyDependsOn(w1, w, k, spec);
  }

  /** The network is there and the MAC stored: cloud-init, then the VM itself. */
  method CreateAttached(api: Api, k: Key, spec: MachineSpec, cluster: string, disks0: seq<Disk>, volumes0: seq<Volume>, nic: Nic)
      returns (result: Creation)
    requires api.Valid() && Anchors(api.w, k, cluster) && !Deleting(api.w, k) && spec == api.w.machines[k].spec
    requires AvoidsGeneratedNames(spec.disks) && Ref(cluster, k) !in api.w.vms
    requires disks0 == AllDisks(spec, None) && volumes0 == AllVolumes(spec, k.name, api.w.shared, None)
    requires NicReady(api.w, k, cluster, nic)
    requires api.w.shared && BootsFromISO(spec) ==> ISOReady(api.w, SharedISO.ISORef(cluster, k, spec.os))
    requires (cluster, k.ns) in api.w.namespaces && ClaimsReady(api.w, k, cluster, PvcNames(k.name, spec.disks))
    modifies api
    ensures api.Valid() && old(api.log) <= api.log
    ensures forall i :: |old(api.log)| <= i < |api.log| ==> api.log[i].CreateVM?
    ensures api.w == old(api.w).(vms := api.w.vms) && Extends(old(api.w.vms), api.w.vms)
    ensures api.w.vms == old(api.w.vms)
         || api.w.vms == old(api.w.vms)[Ref(cluster, k) := BuildVM(spec, k.name, api.w.shared, BundleOf(CloudInitOf(api.w, k, spec)), nic.network, nic.mac)]
    ensures result.Created? ==> Ref(cluster, k) in api.w.vms && api.w.vms[Ref(cluster, k)] == result.vm
    ensures old(api.faults) == [] ==> api.faults == [] && (result.Created? <==> Available(CloudInitOf(api.w, k, spec)))
  {
    hide Api.Valid, MacFor, AllDisks, AllVolumes, IsoNames.SharedISOResourceName, PvcNames, BuildVM, NicReady, CloudInitOf, Inv, SharedISO.ISORef, ISOReady, Extends, ClaimsReady;
    ghost var w := api.w;
    assert Extends(w.vms, w.vms) by { KeepsAll(w.vms); }
    var resolved := CloudInitResolver.ResolveCloudInit(api, k, spec);
    if !Available(resolved) {
      return if resolved.Unresolvable? then Fails else Waits;
    }
    var ci := BundleOf(resolved);
    var disks, volumes := AddCloudInitDisk(spec, k.name, api.w.shared, disks0, volumes0, ci);
    result := SubmitVM(api, k, spec, cluster, disks, volumes, nic);
    CloudInitDependsOn(w, api.w, k, spec);
  }

  lemma SubmittedIsVMOf(w0: World, w1: World, w: World, k: Key, spec: MachineSpec, cluster: string, nic: Nic)
    requires w1.vms == w0.vms && w1.shared == w0.shared && w.ncs == w1.ncs
    requires IsNetworkOf(w0, k, spec, nic.network) && NicReady(w1, k, cluster, nic)
    requires w.vms == w1.vms
          || w.vms == w1.vms[Ref(cluster, k) := BuildVM(spec, k.name, w1.shared, BundleOf(CloudInitOf(w, k, spec)), nic.network, nic.mac)]
    ensures forall r :: r in w.vms && r !in w0.vms ==> r == Ref(cluster, k) && IsVMOf(w0, w, k, spec, w.vms[r])
  {
    hide BuildVM, MacFor, CloudInitOf;
  }

  method SubmitVM(api: Api, k: Key, spec: MachineSpec, cluster: string, disks: seq<Disk>, volumes: seq<Volume>, nic: Nic)
      returns (result: Creation)
    requires api.Valid() && Anchors(api.w, k, cluster) && !Deleting(api.w, k) && spec == api.w.machines[k].spec
    requires AvoidsGeneratedNames(spec.disks) && Ref(cluster, k) !in api.w.vms && Available(CloudInitOf(api.w, k, spec))
    requires var ci := BundleOf(CloudInitOf(api.w, k, spec));
             disks == AllDisks(spec, ci) && volumes == AllVolumes(spec, k.name, api.w.shared, ci)
    requires NicReady(api.w, k, cluster, nic)
    requires api.w.shared && BootsFromISO(spec) ==> ISOReady(api.w, SharedISO.ISORef(cluster, k, spec.os))
    requires (cluster, k.ns) in api.w.namespaces && ClaimsReady(api.w, k, cluster, PvcNames(k.name, spec.disks))
    modifies api
    ensures api.Valid() && old(api.log) <= api.log
    ensures forall i :: |old(api.log)| <= i < |api.log| ==> api.log[i].CreateVM?
    ensures api.w == old(api.w).(vms := api.w.vms) && Extends(old(api.w.vms), api.w.vms)
    ensures api.w.vms == old(api.w.vms)
         || api.w.vms == old(api.w.vms)[Ref(cluster, k) := BuildVM(spec, k.name, api.w.shared, BundleOf(CloudInitOf(old(api.w), k, spec)), nic.network, nic.mac)]
    ensures result.Created? ==> Ref(cluster, k) in api.w.vms && api.w.vms[Ref(cluster, k)] == result.vm
    ensures old(api.faults) == [] ==> api.faults == [] && result.Created?
  {
    hide Api.Valid, MacFor, AllDisks, AllVolumes, IsoNames.SharedISOResourceName, PvcNames, CloudInitOf, ClaimsReady;
    var vm := VM(true, true, false, false,
                 Some(Template(disks, volumes, [nic.network], [Interface(nic.network.name, NICBootOrder(spec), nic.mac)])),
                 if BootsFromISO(spec) && !api.w.shared then [ISOResourceName(k.name)] else []);
    NewVMIsLegal(api.w, Ref(cluster, k), spec, nic.network, nic.mac);
    hide MayCreateVM;
    var reply := api.Write(CreateVM(Ref(cluster, k), vm));
    result := if reply == Done then Created(vm) else Fails;
  }

  method AssembleDisks(spec: MachineSpec, vmName: string, pvcNames: seq<string>, shared: bool)
      returns (disks: seq<Disk>, volumes: seq<Volume>)
    requires pvcNames == PvcNames(vmName, spec.disks)
    ensures disks == AllDisks(spec, None) && volumes == AllVolumes(spec, vmName, shared, None)
  {
    disks, volumes := BuildDisksAndVolumes(spec.disks, pvcNames);
    if BootsFromISO(spec) {
      disks, volumes := disks + [ISODisk], volumes + [ISOVolume(spec, vmName, shared)];
    }
  }

  method AddCloudInitDisk(ghost spec: MachineSpec, ghost vmName: string, ghost shared: bool, disks0: seq<Disk>, volumes0: seq<Volume>, ci: Option<CloudInitBundle>)
      returns (disks: seq<Disk>, volumes: seq<Volume>)
    requires disks0 == AllDisks(spec, None) && volumes0 == AllVolumes(spec, vmName, shared, None)
    ensures disks == AllDisks(spec, ci) && volumes == AllVolumes(spec, vmName, shared, ci)
  {
    disks, volumes := disks0, volumes0;
    if ci.Some? {
      disks := disks + [CloudInitDisk];
      volumes := volumes + [Volume(CLOUD_INIT_DISK_NAME, CloudInitNoCloud(ci.value.userData, ci.value.networkData))];
    }
  }
}
