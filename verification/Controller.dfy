/** One reconcile pass: Reconcile of controllers/v1alpha1/machine_controller.go and the steps that lead to a VM. */
module Controller {
  import opened Wrappers
  import opened Objects
  import opened Worlds
  import opened Fleet
  import opened Apis
  import opened CloudInitSources
  import opened VmManager
  import VmSpec
  import Placement
  import Storage
  import NetworkManager
  import SharedISO
  import NetworkConfig
  import Cdrom
  import Deletion

  method EnsureNamespaceExists(api: Api, cluster: string, ns: string) returns (ok: bool)
    requires api.Valid()
    modifies api
    ensures api.Valid() && old(api.log) <= api.log
    ensures forall i :: |old(api.log)| <= i < |api.log| ==> api.log[i].CreateNS?
    ensures api.w == old(api.w).(namespaces := api.w.namespaces) && old(api.w.namespaces) <= api.w.namespaces
    ensures api.w.namespaces <= old(api.w.namespaces) + {(cluster, ns)}
    ensures ok ==> (cluster, ns) in api.w.namespaces
    ensures old(api.faults) == [] ==> api.faults == [] && ok
  {
    hide Api.Valid;
    var got := api.Read();
    if !got {
      return false;
    }
    if (cluster, ns) in api.w.namespaces {
      return true;
    }
    var reply := api.Write(CreateNS(cluster, ns));
    ok := reply == Done || reply == Exists;
  }

  method AddFinalizer(api: Api, k: Key, m: Machine) returns (ok: bool)
    requires api.Valid() && k in api.w.machines && api.w.machines[k] == m && !m.deleting
    modifies api
    ensures api.Valid() && old(api.log) <= api.log
    ensures forall i :: |old(api.log)| <= i < |api.log| ==> api.log[i].PutMachine?
    ensures api.w == old(api.w).(machines := api.w.machines)
    ensures api.w.machines == old(api.w.machines) || api.w.machines == old(api.w.machines)[k := m.(finalizer := true, rv := m.rv + 1)]
    ensures old(api.faults) == [] ==> api.faults == [] && ok
    ensures ok ==> api.w.machines[k].finalizer
  {
    hide Api.Valid;
    assert Legal(api.w, PutMachine(k, m.(finalizer := true)));
    PutApplies(api.w, k, m.(finalizer := true));
    hide Legal, VerdictOf, Apply, Inv;
    var reply := api.Write(PutMachine(k, m.(finalizer := true)));
    ok := reply == Done;
  }

  lemma AnnotatingIsLegal(w: World, k: Key, m: Machine, cluster: string)
    requires k in w.machines && w.machines[k] == m && !m.deleting && m.finalizer && m.config == ""
    ensures Legal(w, PutMachine(k, m.(config := cluster)))
  {
  }

  lemma PutApplies(w: World, k: Key, m: Machine)
    requires k in w.machines && w.machines[k].rv == m.rv
    ensures VerdictOf(w, PutMachine(k, m)) == Accepted
    ensures Apply(w, PutMachine(k, m)) == w.(machines := w.machines[k := m.(rv := m.rv + 1)])
  {
  }

  /** Records the placement before anything is created; the Machine is fetched again first. */
  method AnnotatePlacement(api: Api, k: Key, m: Machine, cluster: string) returns (ok: bool)
    requires api.Valid() && k in api.w.machines && api.w.machines[k] == m
    requires cluster != "" && !m.deleting && m.finalizer && m.config == ""
    modifies api
    ensures api.Valid() && old(api.log) <= api.log
    ensures forall i :: |old(api.log)| <= i < |api.log| ==> api.log[i].PutMachine?
    ensures api.w == old(api.w).(machines := api.w.machines)
    ensures api.w.machines == old(api.w.machines) || api.w.machines == old(api.w.machines)[k := m.(config := cluster, rv := m.rv + 1)]
    ensures ok ==> api.w.machines == old(api.w.machines)[k := m.(config := cluster, rv := m.rv + 1)]
    ensures old(api.faults) == [] ==> api.faults == [] && ok
  {
    hide Api.Valid, Legal;
    var got := api.Read();
    if !got {
      return false;
    }
    AnnotatingIsLegal(api.w, k, m, cluster);
    PutApplies(api.w, k, m.(config := cluster));
    hide VerdictOf, Apply;
    var reply := api.Write(PutMachine(k, m.(config := cluster)));
    ok := reply == Done;
  }

  // ---- ensureVirtualMachine ----

  /** The shared boot ISO a new VM would mount is needed and not imported yet. */
  predicate AwaitsISO(w: World, k: Key, cluster: string, spec: MachineSpec) {
    w.shared && BootsFromISO(spec) && !ISOReady(w, SharedISO.ISORef(cluster, k, spec.os))
  }

  /** Everything a failure-free creation depends on but what it waits for: the import, cloud-init's sources, addresses. */
  predicate Provisionable(w: World, k: Key, spec: MachineSpec, p: Prereqs) {
    (p.storageClass || p.hasDefaultClass) && p.resources && CanAttach(w, k, spec, p.generatedMac)
    && (w.shared && BootsFromISO(spec) ==> SharedISO.SupportedSource(spec)) && CidataPossible(w, k, spec)
  }

  lemma AbsentMeansUnowned(api: Api, k: Key, cluster: string)
    requires api.Valid() && Anchors(api.w, k, cluster) && Ref(cluster, k) !in api.w.vms
    ensures NoOwnedVM(api.w, k)
  {
  }

  lemma SpecAvoidsGeneratedNames(api: Api, k: Key)
    requires api.Valid() && k in api.w.machines
    ensures AvoidsGeneratedNames(api.w.machines[k].spec.disks)
  {
  }

  method EnsureISO(api: Api, k: Key, spec: MachineSpec, cluster: string) returns (proceed: bool)
    requires api.Valid()
    modifies api
    ensures api.Valid() && old(api.log) <= api.log
    ensures forall i :: |old(api.log)| <= i < |api.log| ==> api.log[i].CreateDV?
    ensures api.w == old(api.w).(dvs := api.w.dvs) && Extends(old(api.w.dvs), api.w.dvs)
    ensures proceed ==> !AwaitsISO(api.w, k, cluster, spec)
    ensures old(api.faults) == [] ==> api.faults == [] && (proceed <==> !AwaitsISO(old(api.w), k, cluster, spec))
    ensures !proceed ==> api.w.shared && BootsFromISO(spec)
    ensures old(api.faults) == [] && !proceed && SharedISO.SupportedSource(spec) ==> SharedISO.ISORef(cluster, k, spec.os) in api.w.dvs
  {
    hide Api.Valid;
    proceed := true;
    if api.w.shared && BootsFromISO(spec) {
      var state := SharedISO.EnsureSharedISODataVolume(api, k, spec, cluster);
      proceed := state == SharedISO.Ready;
    }
  }

  /** A VM that was added is the Machine's, and all its disks' PVCs exist. */
  ghost predicate NewVMsHaveDisks(w: World, w': World, k: Key, cluster: string, spec: MachineSpec) {
    forall r :: r in w'.vms && r !in w.vms ==>
      r == Ref(cluster, k) && forall name :: name in VmSpec.PvcNames(k.name, spec.disks) ==> Ref(cluster, Key(k.ns, name)) in w'.pvcs
  }

  lemma ClaimsFound(w: World, k: Key, cluster: string, names: seq<string>)
    requires forall name :: name in names ==> Storage.PvcRef(cluster, k, name) in w.pvcs
    ensures ClaimsReady(w, k, cluster, names)
  {
    forall name | name in names ensures Ref(cluster, Key(k.ns, name)) in w.pvcs {
      assert Storage.PvcRef(cluster, k, name) in w.pvcs;
    }
  }

  lemma ClaimsKept(w: World, w': World, k: Key, cluster: string, names: seq<string>)
    requires ClaimsReady(w, k, cluster, names) && Grows(w, w')
    ensures ClaimsReady(w', k, cluster, names)
  {
  }

  lemma DisksStay(w0: World, w: World, w': World, k: Key, cluster: string, spec: MachineSpec)
    requires w.vms == w0.vms && Grows(w, w') && ClaimsReady(w, k, cluster, VmSpec.PvcNames(k.name, spec.disks))
    requires forall r :: r in w'.vms && r !in w.vms ==> r == Ref(cluster, k)
    ensures NewVMsHaveDisks(w0, w', k, cluster, spec)
  {
    hide VmSpec.PvcNames;
  }

  /** The branch of ensureVirtualMachine that finds no VM. */
  method ProvisionVM(api: Api, k: Key, spec: MachineSpec, cluster: string, p: Prereqs) returns (vm: Option<VM>)
    requires api.Valid() && Anchors(api.w, k, cluster) && !Deleting(api.w, k) && GeneratesMac(p)
    requires spec == api.w.machines[k].spec && Ref(cluster, k) !in api.w.vms && (cluster, k.ns) in api.w.namespaces
    modifies api
    ensures api.Valid() && old(api.log) <= api.log
    ensures Grows(old(api.w), api.w)
    ensures forall i :: |old(api.log)| <= i < |api.log| ==> Creating(api.log[i])
    ensures vm.Some? ==> Ref(cluster, k) in api.w.vms && api.w.vms[Ref(cluster, k)] == vm.value
    ensures old(api.faults) == [] ==> api.faults == []
    ensures old(api.faults) == [] && Provisionable(old(api.w), k, spec, p) ==>
              if AwaitsISO(old(api.w), k, cluster, spec) then SharedISO.ISORef(cluster, k, spec.os) in api.w.dvs
              else ClaimsReady(api.w, k, cluster, VmSpec.PvcNames(k.name, spec.disks))
                   && MacReady(api.w, k, spec) && (Available(CloudInitOf(api.w, k, spec)) ==> vm.Some?)
    ensures MacReady(old(api.w), k, spec) ==> NetworkConfig.SameIfaces(old(api.w), api.w, k)
    ensures NewVMsHaveDisks(old(api.w), api.w, k, cluster, spec)
  {
    hide Api.Valid, Inv, Grows, Extends, AwaitsISO, CanAttach, VmSpec.PvcNames, SharedISO.ISORef, SharedISO.SupportedSource,
         MacReady, CloudInitOf, CidataPossible, ClaimsReady, NewVMsHaveDisks;
    ghost var w0 := api.w;
    NothingNew(w0, k, spec);
    var proceed := EnsureISO(api, k, spec, cluster);
    ghost var w1 := api.w;
    KeepsAllStores(w0);
    NetworkConfig.NothingKept(w0);
    GrowsByAdding(w0, w1);
    MacReadyDependsOn(w0, w1, k, spec);
    if proceed {
      CanAttachDependsOn(w0, w1, k, spec, p.generatedMac);
      vm := ClaimAndCreate(api, k, spec, cluster, p);
      GrowsTransitive(w0, w1, api.w);
      NewSincePlacing(w0, w1, api.w, k, cluster, spec);
    } else {
      vm := None;
    }
  }

  /** The PVCs, then the VM. */
  method ClaimAndCreate(api: Api, k: Key, spec: MachineSpec, cluster: string, p: Prereqs) returns (vm: Option<VM>)
    requires api.Valid() && Anchors(api.w, k, cluster) && !Deleting(api.w, k) && GeneratesMac(p)
    requires spec == api.w.machines[k].spec && Ref(cluster, k) !in api.w.vms && (cluster, k.ns) in api.w.namespaces
    requires !AwaitsISO(api.w, k, cluster, spec)
    modifies api
    ensures api.Valid() && old(api.log) <= api.log
    ensures Grows(old(api.w), api.w)
    ensures forall i :: |old(api.log)| <= i < |api.log| ==> Creating(api.log[i])
    ensures vm.Some? ==> Ref(cluster, k) in api.w.vms && api.w.vms[Ref(cluster, k)] == vm.value
    ensures old(api.faults) == [] ==> api.faults == []
    ensures old(api.faults) == [] && (p.storageClass || p.hasDefaultClass) && p.resources && CanAttach(old(api.w), k, spec, p.generatedMac) ==>
              ClaimsReady(api.w, k, cluster, VmSpec.PvcNames(k.name, spec.disks))
              && MacReady(api.w, k, spec) && (Available(CloudInitOf(api.w, k, spec)) ==> vm.Some?)
    ensures MacReady(old(api.w), k, spec) ==> NetworkConfig.SameIfaces(old(api.w), api.w, k)
    ensures NewVMsHaveDisks(old(api.w), api.w, k, cluster, spec)
  {
    hide Api.Valid, Inv, Grows, Extends, NoOwnedVM, AwaitsISO, CanAttach, VmSpec.PvcNames, SharedISO.ISORef,
         MacReady, CloudInitOf, Storage.OnlyClaimsOf, IsVMOf, ClaimsReady, NewVMsHaveDisks;
    ghost var w0 := api.w;
    NothingNew(w0, k, spec);
    SpecAvoidsGeneratedNames(api, k);
    vm := None;
    var pvcNames := Storage.CreatePVCsFromDiskSpecs(api, k, spec.disks, cluster, p.storageClass, p.hasDefaultClass);
    ghost var w1 := api.w;
    KeepsAllStores(w0);
    NetworkConfig.NothingKept(w0);
    GrowsByAdding(w0, w1);
    MacReadyDependsOn(w0, w1, k, spec);
    if pvcNames.Some? {
      AbsentMeansUnowned(api, k, cluster);
      ClaimsFound(w1, k, cluster, pvcNames.value);
      CanAttachDependsOn(w0, w1, k, spec, p.generatedMac);
      NotAwaiting(w0, w1, k, cluster, spec);
      var result := CreateVirtualMachine(api, k, spec, cluster, pvcNames.value, p);
      GrowsTransitive(w0, w1, api.w);
      DisksStay(w0, w1, api.w, k, cluster, spec);
      ClaimsKept(w1, api.w, k, cluster, pvcNames.value);
      vm := if result.Created? then Some(result.vm) else None;
    }
  }

  lemma NotAwaiting(w: World, w': World, k: Key, cluster: string, spec: MachineSpec)
    requires !AwaitsISO(w, k, cluster, spec) && w'.dvs == w.dvs && w'.shared == w.shared
    ensures w'.shared && BootsFromISO(spec) ==> ISOReady(w', SharedISO.ISORef(cluster, k, spec.os))
  {
  }

  /** The writes of a creating pass, the placement apart. */
  predicate Creating(e: Effect) {
    e.CreateDV? || e.CreatePVC? || e.CreateNAD? || e.CreateNC? || e.UpdateNC? || e.CreateVM?
  }

  /**
    The existing VM, or a new one after its boot ISO is imported and its PVCs exist. Whatever happens, everything
    persisted before is still there afterwards.
  */
  method EnsureVirtualMachine(api: Api, k: Key, cluster: string, p: Prereqs) returns (vm: Option<VM>)
    requires api.Valid() && Anchors(api.w, k, cluster) && !Deleting(api.w, k) && GeneratesMac(p)
    requires (cluster, k.ns) in api.w.namespaces
    modifies api
    ensures api.Valid() && old(api.log) <= api.log
    ensures Grows(old(api.w), api.w)
    ensures NewVMsHaveDisks(old(api.w), api.w, k, cluster, old(api.w).machines[k].spec)
    ensures forall i :: |old(api.log)| <= i < |api.log| ==> Creating(api.log[i])
    ensures Ref(cluster, k) in old(api.w.vms) ==> api.log == old(api.log)
    ensures vm.Some? ==> Ref(cluster, k) in api.w.vms && api.w.vms[Ref(cluster, k)] == vm.value
    ensures old(api.faults) == [] ==> api.faults == []
    ensures old(api.faults) == [] && Provisionable(old(api.w), k, old(api.w).machines[k].spec, p) ==>
              Progresses(old(api.w), api.w, k)
    ensures old(api.faults) == [] && Ref(cluster, k) in old(api.w.vms) ==> vm.Some?
  {
    hide Api.Valid, Grows, NoOwnedVM, AwaitsISO, CanAttach, Progresses, Provisionable, MacReady, CloudInitOf, NewVMsHaveDisks;
    NothingNew(api.w, k, api.w.machines[k].spec);
    ghost var w0 := api.w;
    GrowsByAdding(w0, w0);
    var got := api.Read();
    if !got {
      return None;
    }
    if Ref(cluster, k) in api.w.vms {
      StaysDone(w0, k, cluster);
      return Some(api.w.vms[Ref(cluster, k)]);
    }
    vm := ProvisionVM(api, k, api.w.machines[k].spec, cluster, p);
    if Provisionable(w0, k, w0.machines[k].spec, p) && old(api.faults) == [] {
      ProvisioningProgresses(w0, api.w, k, cluster);
    }
  }

  /**
    What is still missing before the VM exists: finalizer, placement, shared ISO, its import,
    the disks' PVCs, the stored MAC, cloud-init's sources and the MAC's address, VM.
  */
  function CreationRank(w: World, k: Key): nat {
    if k !in w.machines || !w.machines[k].finalizer then 8
    else
      var m := w.machines[k];
      if m.config == "" then 7
      else if Ref(m.config, k) in w.vms then 0
      else if AwaitsISO(w, k, m.config, m.spec) then
        if SharedISO.ISORef(m.config, k, m.spec.os) in w.dvs then Importing else 6
      else if !ClaimsReady(w, k, m.config, VmSpec.PvcNames(k.name, m.spec.disks)) then 4
      else if !MacReady(w, k, m.spec) then 3
      else if !Available(CloudInitOf(w, k, m.spec)) then Allocating
      else 1
  }

  /** The two ranks at which a pass waits for somebody else. */
  const Importing: nat := 5
  const Allocating: nat := 2

  /** Less is missing, or nothing, or the pass waits for an import, an address or a cloud-init source. */
  predicate Progresses(w: World, w': World, k: Key) {
    || CreationRank(w', k) < CreationRank(w, k)
    || CreationRank(w', k) == 0
    || CreationRank(w', k) == CreationRank(w, k) == Importing
    || CreationRank(w', k) == CreationRank(w, k) == Allocating
  }

  lemma StaysDone(w: World, k: Key, cluster: string)
    requires Anchors(w, k, cluster) && Ref(cluster, k) in w.vms
    ensures Progresses(w, w, k)
  {
  }

  lemma AwaitsWhatItDid(w: World, w': World, k: Key, cluster: string, spec: MachineSpec)
    requires w'.shared == w.shared && Extends(w.dvs, w'.dvs)
    ensures !AwaitsISO(w, k, cluster, spec) ==> !AwaitsISO(w', k, cluster, spec)
    ensures SharedISO.ISORef(cluster, k, spec.os) in w.dvs ==> SharedISO.ISORef(cluster, k, spec.os) in w'.dvs
  {
    hide SharedISO.ISORef;
  }

  lemma ProvisioningProgresses(w: World, w': World, k: Key, cluster: string)
    requires Anchors(w, k, cluster) && Grows(w, w')
    requires var spec := w.machines[k].spec;
             if AwaitsISO(w, k, cluster, spec) then SharedISO.ISORef(cluster, k, spec.os) in w'.dvs
             else ClaimsReady(w', k, cluster, VmSpec.PvcNames(k.name, spec.disks)) && MacReady(w', k, spec) && (Available(CloudInitOf(w', k, spec)) ==> Ref(cluster, k) in w'.vms)
    requires MacReady(w, k, w.machines[k].spec) ==> NetworkConfig.SameIfaces(w, w', k)
    ensures Progresses(w, w', k)
  {
    var spec := w.machines[k].spec;
    AwaitsWhatItDid(w, w', k, cluster, spec);
    if MacReady(w, k, spec) { CloudInitDependsOn(w, w', k, spec); }
    hide SharedISO.ISORef, AwaitsISO, MacReady, CloudInitOf, NCsKept, VmSpec.PvcNames;
  }

  // ---- Reconcile ----

  datatype PassEnd = NoMachine | Stopped | Completed

  /** What a creating pass may have done to the stores, whatever interrupted it. */
  ghost predicate Persists(w: World, w': World, k: Key) {
    && k in w.machines && k in w'.machines && w'.machines == w.machines[k := w'.machines[k]]
    && (w.machines[k].finalizer ==> w'.machines[k].finalizer)
    && (w'.machines[k].config == w.machines[k].config || (w.machines[k].config == "" && Reachable(w, w'.machines[k].config)))
    && w'.machines[k].spec == w.machines[k].spec && w'.machines[k].deleting == w.machines[k].deleting
    && Grows(w.(machines := w'.machines), w')
  }

  lemma PersistsTransitive(w1: World, w2: World, w3: World, k: Key)
    requires Persists(w1, w2, k) && Persists(w2, w3, k)
    ensures Persists(w1, w3, k)
  {
    GrowsTransitive(w1.(machines := w3.machines), w2.(machines := w3.machines), w3);
  }

  lemma PersistsByAdding(w: World, w': World, k: Key)
    requires k in w.machines && Grows(w, w')
    ensures Persists(w, w', k)
  {
    assert w.(machines := w'.machines) == w;
    assert w.machines == w.machines[k := w.machines[k]];
  }

  lemma PersistsByPut(w: World, w': World, k: Key, m: Machine)
    requires k in w.machines && w' == w.(machines := w'.machines)
    requires w'.machines == w.machines || w'.machines == w.machines[k := m]
    requires m.spec == w.machines[k].spec && m.deleting == w.machines[k].deleting
    requires w.machines[k].finalizer ==> m.finalizer
    requires m.config == w.machines[k].config || (w.machines[k].config == "" && Reachable(w, m.config))
    ensures Persists(w, w', k)
  {
    assert w.machines == w.machines[k := w.machines[k]];
    GrowsByAdding(w', w');
  }

  /** Placement resolved and recorded on the Machine, and the namespace there. */
  method Place(api: Api, k: Key, m: Machine) returns (cluster: Option<string>)
    requires api.Valid() && k in api.w.machines && api.w.machines[k] == m && !m.deleting && m.finalizer
    modifies api
    ensures api.Valid() && old(api.log) <= api.log
    ensures forall i :: |old(api.log)| <= i < |api.log| ==> api.log[i].CreateNS? || api.log[i].PutMachine?
    ensures Persists(old(api.w), api.w, k)
    ensures api.w == old(api.w).(machines := api.w.machines, namespaces := api.w.namespaces)
    ensures cluster.Some? ==> Anchors(api.w, k, cluster.value) && (cluster.value, k.ns) in api.w.namespaces
    ensures cluster.Some? && m.config == "" && api.w.defaultConfig == "" && |api.w.configs| >= 2 ==> Ref(cluster.value, k) in api.w.vms
    ensures old(api.faults) == [] ==> api.faults == [] && (cluster.Some? <==> Placement.PlacementOf(old(api.w), k, m.config) != "")
  {
    hide Api.Valid, Inv, Grows, Extends, Persists, Placement.PlacementOf, Reachable, Anchors;
    ghost var w0 := api.w;
    KeepsAllStores(w0);
    NetworkConfig.NothingKept(w0);
    GrowsByAdding(w0, w0);
    PersistsByAdding(w0, w0, k);
    Deletion.ConfigsNamed(api);
    var ok, name, needsAnnotation := Placement.GetOrCreateClientFromMachine(api, k, m);
    assert ok && m.config == "" && w0.defaultConfig == "" && |w0.configs| >= 2 ==> Ref(name, k) in w0.vms;
    hide Placement.NamedConfig, Placement.HasVM;
    cluster := None;
    if ok {
      cluster := PlaceOn(api, k, m, name, needsAnnotation);
    }
  }

  lemma KeepsAllStores(w: World)
    ensures Extends(w.vms, w.vms) && Extends(w.pvcs, w.pvcs) && Extends(w.nads, w.nads) && Extends(w.dvs, w.dvs)
  {
  }

  /** The namespace, then the annotation. */
  method PlaceOn(api: Api, k: Key, m: Machine, name: string, needsAnnotation: bool) returns (cluster: Option<string>)
    requires api.Valid() && k in api.w.machines && api.w.machines[k] == m && !m.deleting && m.finalizer
    requires Reachable(api.w, name)
    requires name != "" && (m.config == name || (m.config == "" && needsAnnotation)) && (m.config != "" ==> !needsAnnotation)
    modifies api
    ensures api.Valid() && old(api.log) <= api.log
    ensures forall i :: |old(api.log)| <= i < |api.log| ==> api.log[i].CreateNS? || api.log[i].PutMachine?
    ensures Persists(old(api.w), api.w, k)
    ensures api.w == old(api.w).(machines := api.w.machines, namespaces := api.w.namespaces)
    ensures cluster.Some? ==> cluster.value == name && Anchors(api.w, k, name) && (name, k.ns) in api.w.namespaces
    ensures old(api.faults) == [] ==> api.faults == [] && cluster.Some?
  {
    hide Api.Valid, Inv, Grows, Extends, Persists;
    ghost var w0 := api.w;
    cluster := None;
    var ok := EnsureNamespaceExists(api, name, k.ns);
    ghost var w1 := api.w;
    KeepsAllStores(w0);
    GrowsByAdding(w0, w1);
    PersistsByAdding(w0, w1, k);
    if ok {
      if needsAnnotation {
        assert Reachable(api.w, name);
        ok := RecordPlacement(api, k, m, name);
        PersistsTransitive(w0, w1, api.w, k);
      }
      if ok { cluster := Some(name); }
    }
  }

  method RecordPlacement(api: Api, k: Key, m: Machine, cluster: string) returns (ok: bool)
    requires api.Valid() && k in api.w.machines && api.w.machines[k] == m
    requires cluster != "" && !m.deleting && m.finalizer && m.config == "" && Reachable(api.w, cluster)
    modifies api
    ensures api.Valid() && old(api.log) <= api.log
    ensures forall i :: |old(api.log)| <= i < |api.log| ==> api.log[i].PutMachine?
    ensures api.w == old(api.w).(machines := api.w.machines) && Persists(old(api.w), api.w, k)
    ensures ok ==> Anchors(api.w, k, cluster)
    ensures old(api.faults) == [] ==> api.faults == [] && ok
  {
    hide Api.Valid, Persists;
    ghost var w := api.w;
    ok := AnnotatePlacement(api, k, m, cluster);
    PersistsByPut(w, api.w, k, m.(config := cluster, rv := m.rv + 1));
  }

  /** What the environment has to provide for a creating pass to get anywhere. */
  predicate CanProvision(w: World, k: Key, m: Machine, p: Prereqs) {
    Placement.PlacementOf(w, k, m.config) != "" && Provisionable(w, k, m.spec, p) && (m.spec.cluster ==> m.spec.clusterLabels)
  }

  lemma PlacedProgresses(w0: World, w1: World, w2: World, k: Key)
    requires k in w0.machines && w0.machines[k].finalizer && k in w1.machines && w1.machines[k].finalizer && w1.machines[k].config != ""
    requires w1 == w0.(machines := w1.machines, namespaces := w1.namespaces) && w1.machines[k].spec == w0.machines[k].spec
    requires w0.machines[k].config in {"", w1.machines[k].config} && Progresses(w1, w2, k)
    ensures Progresses(w0, w2, k)
  {
    MacReadyDependsOn(w0, w1, k, w0.machines[k].spec);
    CloudInitDependsOn(w0, w1, k, w0.machines[k].spec);
    hide SharedISO.ISORef, MacReady, CloudInitOf, VmSpec.PvcNames;
  }

  lemma ProvisionableDependsOn(w: World, w': World, k: Key, spec: MachineSpec, p: Prereqs)
    requires w'.netns == w.netns && w'.ncs == w.ncs && w'.shared == w.shared
    ensures Provisionable(w', k, spec, p) == Provisionable(w, k, spec, p)
  {
    CanAttachDependsOn(w, w', k, spec, p.generatedMac);
    SameNetNs(w, w', k, spec);
    assert CidataPossible(w', k, spec) == CidataPossible(w, k, spec);
    hide CanAttach, CidataPossible;
  }

  /** From resolving the placement to having a VM. */
  method PlaceAndCreate(api: Api, k: Key, m: Machine, p: Prereqs) returns (cluster: string, vm: Option<VM>)
    requires api.Valid() && k in api.w.machines && api.w.machines[k] == m && !m.deleting && m.finalizer && GeneratesMac(p)
    modifies api
    ensures api.Valid() && old(api.log) <= api.log
    ensures Persists(old(api.w), api.w, k)
    ensures m.config == "" && old(api.w).defaultConfig == "" && |old(api.w).configs| >= 2 ==>
              forall i :: |old(api.log)| <= i < |api.log| ==> !api.log[i].CreateVM?
    ensures vm.Some? ==> Anchors(api.w, k, cluster) && Ref(cluster, k) in api.w.vms && api.w.vms[Ref(cluster, k)] == vm.value
    ensures m.spec.cluster && !m.spec.clusterLabels ==> api.w == old(api.w) && vm.None?
    ensures NewVMsHaveDisks(old(api.w), api.w, k, cluster, m.spec)
    ensures old(api.faults) == [] ==> api.faults == []
    ensures old(api.faults) == [] && CanProvision(old(api.w), k, m, p) ==> Progresses(old(api.w), api.w, k)
  {
    hide Api.Valid, Grows, Persists, Placement.PlacementOf, Provisionable, Progresses, NewVMsHaveDisks;
    cluster, vm := "", None;
    NothingNew(api.w, k, m.spec);
    ghost var w0 := api.w;
    GrowsByAdding(w0, w0);
    PersistsByAdding(w0, w0, k);
    if m.spec.cluster && !m.spec.clusterLabels {
      return;
    }
    var placed := Place(api, k, m);
    if placed.None? {
      return;
    }
    cluster := placed.value;
    ghost var w1 := api.w;
    PersistsMachine(w0, w1, k);
    vm := EnsureVirtualMachine(api, k, cluster, p);
    NewSincePlacing(w0, w1, api.w, k, cluster, m.spec);
    PersistsByAdding(w1, api.w, k);
    PersistsTransitive(w0, w1, api.w, k);
    GrowsKeepsMachines(w1, api.w);
    ProvisionableDependsOn(w0, w1, k, m.spec, p);
    if old(api.faults) == [] && CanProvision(w0, k, m, p) {
      PlacedProgresses(w0, w1, api.w, k);
    }
  }

  lemma NothingNew(w: World, k: Key, spec: MachineSpec)
    ensures forall w': World, cluster: string :: w'.vms == w.vms ==> NewVMsHaveDisks(w, w', k, cluster, spec)
  {
  }

  lemma NewSincePlacing(w0: World, w1: World, w2: World, k: Key, cluster: string, spec: MachineSpec)
    requires w1.vms == w0.vms && NewVMsHaveDisks(w1, w2, k, cluster, spec)
    ensures NewVMsHaveDisks(w0, w2, k, cluster, spec)
  {
    hide VmSpec.PvcNames;
  }

  lemma GrowsKeepsMachines(w: World, w': World)
    requires Grows(w, w')
    ensures w'.machines == w.machines
  {
  }

  lemma PersistsMachine(w: World, w': World, k: Key)
    requires Persists(w, w', k)
    ensures k in w.machines && k in w'.machines
    ensures w'.machines[k].spec == w.machines[k].spec && w'.machines[k].deleting == w.machines[k].deleting
    ensures w.machines[k].finalizer ==> w'.machines[k].finalizer
    ensures w.machines[k].config != "" ==> w'.machines[k].config == w.machines[k].config
  {
  }

  /**
    What a pass that found or made the VM leaves when nothing fails: on a cluster recorded on the Machine, with the
    CDROM off once the Machine asks for that and the guest agent is connected, and the allocation provider of a
    NetworkConfiguration of its own filled in from the NetworkNamespace.
  */
  ghost predicate Maintained(w: World, k: Key) {
    && k in w.machines
    && var m := w.machines[k];
    && var r := Ref(m.config, k);
    && Anchors(w, k, m.config) && r in w.vms
    && ((m.spec.cdromEjected || m.spec.osInstalled) && r in w.vmis && w.vmis[r].agentConnected ==> Cdrom.CdromOff(w, k, m.config))
    && (k in w.ncs && w.ncs[k].managed ==> w.ncs[k].provider != "" || NetworkConfig.ProviderOf(w, k, m.spec) == "")
  }

  /** The part of a pass that follows once the VM exists: provider backfill, VMI, ISO cleanup. */
  method MaintainVM(api: Api, k: Key, m: Machine, cluster: string, vm: VM) returns (end: PassEnd)
    requires api.Valid() && k in api.w.machines && api.w.machines[k] == m && m.config == cluster && m.finalizer && cluster != ""
    requires Ref(cluster, k) in api.w.vms && api.w.vms[Ref(cluster, k)] == vm
    modifies api
    ensures api.Valid() && old(api.log) <= api.log
    ensures forall i :: |old(api.log)| <= i < |api.log| ==> !CreatesRemote(api.log[i])
    ensures k in api.w.machines && api.w.machines == old(api.w.machines)[k := api.w.machines[k]]
    ensures api.w.machines[k] in {m, m.(isoCleanedUp := true, rv := m.rv + 1)}
    ensures Ref(cluster, k) in api.w.vms
    ensures !VmSpec.HasISODisk(m.spec.disks) ==> Cdrom.DiskClaimsKept(old(api.w), api.w, k, m.spec)
    ensures api.w.vmis == old(api.w.vmis)
    ensures old(api.faults) == [] ==> Maintained(api.w, k)
    ensures end == Stopped ==> Grows(old(api.w), api.w)
    ensures end in {Stopped, Completed}
    ensures old(api.faults) == [] ==>
              api.faults == [] && end == Completed
              && !Cdrom.ShouldCleanupISO(api.w.machines[k], Cdrom.Lookup(api.w.vms, Ref(cluster, k)), Cdrom.Lookup(api.w.vmis, Ref(cluster, k)))
  {
    hide Api.Valid, Cdrom.ShouldCleanupISO, NetworkConfig.ProviderOf, Grows, VmSpec.HasISODisk, Cdrom.IsDiskClaim, Cdrom.AllDiskClaimsLive,
         Maintained, Cdrom.CdromOff, Cdrom.EjectedAndConnected, NetworkConfig.Backfilled, Inv;
    ghost var w0 := api.w;
    NetworkConfig.EnsureNCProviderBackfilled(api, k, m.spec);
    BackfillGrows(w0, api.w, k, NetworkConfig.ProviderOf(w0, k, m.spec));
    var got := api.Read();
    if !got {
      return Stopped;
    }
    var vmi := Cdrom.Lookup(api.w.vmis, Ref(cluster, k));
    ghost var w1 := api.w;
    Cdrom.HandleISOCleanup(api, k, m, cluster, Some(vm), vmi);
    if old(api.faults) == [] { MaintainedAfter(w0, w1, api.w, k, m, cluster, vmi); }
    end := Completed;
  }

  lemma MaintainedAfter(w0: World, w1: World, w2: World, k: Key, m: Machine, cluster: string, vmi: Option<VMI>)
    requires Anchors(w1, k, cluster) && w1.machines[k] == m && Ref(cluster, k) in w1.vms
    requires w1.netns == w0.netns && (k in w0.ncs <==> k in w1.ncs)
    requires k in w0.ncs ==> w1.ncs[k] == NetworkConfig.Backfilled(w0.ncs[k], NetworkConfig.ProviderOf(w0, k, m.spec))
    requires w2 == w1.(machines := w2.machines, vms := w2.vms, dvs := w2.dvs, pvcs := w2.pvcs) && Ref(cluster, k) in w2.vms
    requires k in w2.machines && (w2.machines[k] == m || w2.machines[k] == m.(isoCleanedUp := true, rv := m.rv + 1))
    requires vmi == Cdrom.Lookup(w1.vmis, Ref(cluster, k))
    requires Cdrom.EjectedAndConnected(m.spec, vmi) ==> Cdrom.CdromOff(w2, k, cluster)
    ensures Maintained(w2, k)
  {
    assert NetworkConfig.ProviderOf(w2, k, m.spec) == NetworkConfig.ProviderOf(w0, k, m.spec);
    hide NetworkConfig.ProviderOf, Cdrom.CdromOff;
  }

  lemma BackfillGrows(w: World, w': World, k: Key, provider: string)
    requires NetworkConfig.OnlyNC(w, w', k)
    requires k in w.ncs ==> k in w'.ncs && w'.ncs[k] in {w.ncs[k], NetworkConfig.Backfilled(w.ncs[k], provider)}
    requires k !in w.ncs ==> k !in w'.ncs
    ensures Grows(w, w')
  {
    NetworkConfig.NothingKept(w);
    hide OnlyFills;
    GrowsByNC(w, w');
  }

  /** A pass over a Machine that is not being deleted and holds the finalizer. */
  method ReconcileLive(api: Api, k: Key, m: Machine, p: Prereqs) returns (end: PassEnd)
    requires api.Valid() && k in api.w.machines && api.w.machines[k] == m && !m.deleting && m.finalizer && GeneratesMac(p)
    modifies api
    ensures api.Valid() && old(api.log) <= api.log
    ensures k in api.w.machines && api.w.machines == old(api.w.machines)[k := api.w.machines[k]]
    ensures api.w.machines[k].finalizer && !api.w.machines[k].deleting && api.w.machines[k].spec == m.spec
    ensures m.config != "" ==> api.w.machines[k].config == m.config
    ensures m.config == "" && old(api.w).defaultConfig == "" && |old(api.w).configs| >= 2 ==>
              forall i :: |old(api.log)| <= i < |api.log| ==> !api.log[i].CreateVM?
    ensures end == Stopped ==> Persists(old(api.w), api.w, k)
    ensures !VmSpec.HasISODisk(m.spec.disks) ==> Cdrom.DiskClaimsKept(old(api.w), api.w, k, m.spec)
    ensures end in {Stopped, Completed}
    ensures old(api.faults) == [] ==> api.faults == []
    ensures old(api.faults) == [] && CanProvision(old(api.w), k, m, p) ==> Progresses(old(api.w), api.w, k)
    ensures old(api.faults) == [] && end == Completed ==>
              var r := Ref(api.w.machines[k].config, k);
              Anchors(api.w, k, r.cluster) && r in api.w.vms && !Cdrom.ShouldCleanupISO(api.w.machines[k], Cdrom.Lookup(api.w.vms, r), Cdrom.Lookup(api.w.vmis, r))
    ensures old(api.faults) == [] && end == Completed ==> Maintained(api.w, k)
    ensures m.spec.cluster && !m.spec.clusterLabels ==> api.w == old(api.w)
  {
    hide Api.Valid, Persists, CanProvision, Progresses, Cdrom.ShouldCleanupISO, Grows, VmSpec.HasISODisk, Cdrom.DiskClaimsKept, Maintained, NewVMsHaveDisks;
    ghost var w0 := api.w;
    var cluster, vm := PlaceAndCreate(api, k, m, p);
    ghost var w1 := api.w;
    PersistsMachine(w0, w1, k);
    PersistsOthers(w0, w1, k);
    PersistsClaims(w0, w1, k, m.spec);
    if vm.None? {
      return Stopped;
    }
    end := MaintainVM(api, k, api.w.machines[k], cluster, vm.value);
    if end == Stopped {
      PersistsByAdding(w1, api.w, k);
      PersistsTransitive(w0, w1, api.w, k);
    }
    if !VmSpec.HasISODisk(m.spec.disks) { ClaimsKeptTwice(w0, w1, api.w, k, m.spec); }
    DoneProgresses(w0, api.w, k, cluster);
  }

  lemma PersistsClaims(w: World, w': World, k: Key, spec: MachineSpec)
    requires Persists(w, w', k)
    ensures Cdrom.DiskClaimsKept(w, w', k, spec)
  {
  }

  lemma ClaimsKeptTwice(w1: World, w2: World, w3: World, k: Key, spec: MachineSpec)
    requires Cdrom.DiskClaimsKept(w1, w2, k, spec) && Cdrom.DiskClaimsKept(w2, w3, k, spec)
    ensures Cdrom.DiskClaimsKept(w1, w3, k, spec)
  {
    hide Cdrom.IsDiskClaim;
  }

  lemma PersistsOthers(w: World, w': World, k: Key)
    requires Persists(w, w', k)
    ensures k in w'.machines && w'.machines == w.machines[k := w'.machines[k]]
  {
  }

  lemma DoneProgresses(w: World, w': World, k: Key, cluster: string)
    requires Anchors(w', k, cluster) && Ref(cluster, k) in w'.vms
    ensures Progresses(w, w', k)
  {
  }

  /** A live Machine tagged for a cluster, past its first pass, that lacks the cluster or role label. */
  predicate LacksLabels(m: Machine) { !m.deleting && m.finalizer && m.spec.cluster && !m.spec.clusterLabels }

  predicate PassProvisions(w: World, k: Key, p: Prereqs) {
    k in w.machines && !w.machines[k].deleting && CanProvision(w, k, w.machines[k], p)
  }

  predicate PassDeletes(w: World, k: Key) {
    k in w.machines && w.machines[k].deleting && Deletion.CanDelete(w, k, w.machines[k])
  }

  /**
    One pass over Machine `k`, under any schedule of failing calls. Every write it issues is one the fleet
    protocol allows where it is issued (`Valid`), and no other Machine object is touched.
  */
  method Reconcile(api: Api, k: Key, p: Prereqs) returns (end: PassEnd)
    requires api.Valid() && GeneratesMac(p)
    modifies api
    ensures api.Valid() && old(api.log) <= api.log
    ensures forall x :: x in old(api.w.machines) && x != k ==> x in api.w.machines && api.w.machines[x] == old(api.w.machines)[x]
    // a deleting Machine never gets anything created
    ensures Deleting(old(api.w), k) ==> forall i :: |old(api.log)| <= i < |api.log| ==> !CreatesRemote(api.log[i])
    // an ambiguous placement only ever adopts
    ensures k in old(api.w.machines) && old(api.w).machines[k].config == "" && old(api.w).defaultConfig == "" && |old(api.w).configs| >= 2 ==>
              forall i :: |old(api.log)| <= i < |api.log| ==> !api.log[i].CreateVM?
    // finalizer and placement are kept until deletion
    ensures k in old(api.w.machines) && !Deleting(old(api.w), k) ==>
              k in api.w.machines
              && (old(api.w).machines[k].finalizer ==> api.w.machines[k].finalizer)
              && (old(api.w).machines[k].config != "" ==> api.w.machines[k].config == old(api.w).machines[k].config)
    // an interrupted or waiting pass loses nothing persisted before
    ensures k in old(api.w.machines) && !Deleting(old(api.w), k) && end == Stopped ==> Persists(old(api.w), api.w, k)
    // a live Machine keeps its disks' PVCs unless a data disk is called "iso"
    ensures k in old(api.w.machines) && !Deleting(old(api.w), k) && !VmSpec.HasISODisk(old(api.w).machines[k].spec.disks) ==>
              Cdrom.DiskClaimsKept(old(api.w), api.w, k, old(api.w).machines[k].spec)
    // failure-free passes make progress
    ensures old(api.faults) == [] && PassProvisions(old(api.w), k, p) ==> Progresses(old(api.w), api.w, k)
    ensures old(api.faults) == [] && PassDeletes(old(api.w), k) ==>
              Deletion.DeletionAdvances(old(api.w), api.w, k, Placement.PlacementOf(old(api.w), k, old(api.w).machines[k].config))
    // a deletion that cannot end stays as it is, whatever fails
    ensures Deletion.Stuck(old(api.w), k) ==> Deletion.Stuck(api.w, k)
    // a failure-free pass that completes leaves no ISO to clean up
    ensures end == NoMachine ==> k !in old(api.w.machines)
    ensures old(api.faults) == [] && end == Completed ==>
              k in api.w.machines && var r := Ref(api.w.machines[k].config, k);
              Anchors(api.w, k, r.cluster) && r in api.w.vms && !Cdrom.ShouldCleanupISO(api.w.machines[k], Cdrom.Lookup(api.w.vms, r), Cdrom.Lookup(api.w.vmis, r))
    ensures old(api.faults) == [] && end == Completed ==> Maintained(api.w, k)
    // a cluster Machine without its labels is left alone
    ensures k in old(api.w.machines) && LacksLabels(old(api.w).machines[k]) ==> api.w == old(api.w)
  {
    hide Api.Valid, Cdrom.ShouldCleanupISO, Placement.PlacementOf, Deletion.DeletionAdvances, Deletion.CanDelete, CanProvision, Persists, Grows, VmSpec.HasISODisk, Cdrom.DiskClaimsKept, Maintained;
    ghost var w0 := api.w;
    GrowsByAdding(w0, w0);
    if k in w0.machines {
      PersistsByAdding(w0, w0, k);
      PersistsClaims(w0, w0, k, w0.machines[k].spec);
    }
    var got := api.Read();
    if !got {
      return Stopped;
    }
    if k !in api.w.machines {
      return NoMachine;
    }
    var m := api.w.machines[k];
    if m.deleting {
      var _ := Deletion.HandleDeletion(api, k, m);
      return Stopped;
    }
    if !m.finalizer {
      var ok := AddFinalizer(api, k, m);
      PersistsByPut(w0, api.w, k, m.(finalizer := true, rv := m.rv + 1));
      PersistsClaims(w0, api.w, k, m.spec);
      return Stopped;
    }
    end := ReconcileLive(api, k, m, p);
  }
}
