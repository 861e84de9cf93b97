/**
  The deletion flow of controllers/v1alpha1/machine_controller.go: handleDeletion, cleanupRemoteResources and
  the steps they call, ending in the removal of the finalizer.
*/
module Deletion {
  import opened Wrappers
  import opened Objects
  import opened Worlds
  import opened Fleet
  import opened Apis
  import Placement
  import Storage
  import NetworkManager
  import SharedISO
  import NetworkConfig

  lemma InvOf(api: Api)
    requires api.Valid()
    ensures Inv(api.w)
  {
  }

  lemma ConfigsNamed(api: Api)
    requires api.Valid()
    ensures "" !in api.w.configs
  {
  }

  /** The caller's copy of the Machine differs from the stored one at most in version and the NAD annotation. */
  predicate SameButNAD(stored: Machine, m: Machine) {
    stored.(rv := m.rv, nadToCleanup := m.nadToCleanup) == m
  }

  /** Only the NAD annotation and the version of Machine `k` change. */
  ghost predicate OnlyNADAnnotation(before: map<Key, Machine>, after: map<Key, Machine>, k: Key) {
    k in before && k in after && SameButNAD(before[k], after[k]) && after == before[k := after[k]]
  }

  function ExtractNADName(vm: VM): (name: string)
    ensures name == "" ==> vm.template.None? || forall n :: n in vm.template.value.networks && n.multus.Some? ==> n.multus.value == ""
    ensures name != "" ==> UsesNAD(vm, name)
  {
    if vm.template.None? then "" else FirstMultus(vm.template.value.networks)
  }

  function FirstMultus(networks: seq<Network>): (name: string)
    ensures name == "" ==> forall n :: n in networks && n.multus.Some? ==> n.multus.value == ""
    ensures name != "" ==> exists i :: 0 <= i < |networks| && networks[i].multus == Some(name)
                                       && forall j :: 0 <= j < i ==> networks[j].multus.None? || networks[j].multus.value == ""
  {
    if networks == [] then ""
    else if networks[0].multus.Some? && networks[0].multus.value != "" then networks[0].multus.value
    else FirstMultus(networks[1..])
  }

  method PutNADAnnotation(api: Api, k: Key, m: Machine, nadName: string) returns (m': Machine)
    requires api.Valid() && Deleting(api.w, k) && SameButNAD(api.w.machines[k], m)
    modifies api
    ensures api.Valid() && old(api.log) <= api.log
    ensures forall i :: |old(api.log)| <= i < |api.log| ==> api.log[i].PutMachine?
    ensures api.w == old(api.w).(machines := api.w.machines) && OnlyNADAnnotation(old(api.w.machines), api.w.machines, k)
    ensures SameButNAD(api.w.machines[k], m')
    ensures api.w == old(api.w) || api.w.machines[k].nadToCleanup == nadName
    ensures old(api.faults) == [] ==>
              api.faults == [] && (m.rv == old(api.w).machines[k].rv ==> api.w.machines[k].nadToCleanup == nadName && m'.rv == api.w.machines[k].rv)
  {
    hide Api.Valid, Inv, Released;
    m' := m.(nadToCleanup := nadName);
    assert Legal(api.w, PutMachine(k, m'));
    var ok := SendMachine(api, k, m');
    if ok {
      m' := m'.(rv := m'.rv + 1);
    }
  }

  /** An Update of the Machine: accepted only over the version it was based on. */
  method SendMachine(api: Api, k: Key, m: Machine) returns (ok: bool)
    requires api.Valid() && k in api.w.machines && Legal(api.w, PutMachine(k, m))
    modifies api
    ensures api.Valid() && old(api.log) <= api.log
    ensures forall i :: |old(api.log)| <= i < |api.log| ==> api.log[i] == PutMachine(k, m)
    ensures api.w == old(api.w)
         || (m.rv == old(api.w).machines[k].rv && api.w == old(api.w).(machines := old(api.w.machines)[k := m.(rv := m.rv + 1)]))
    ensures ok ==> api.w.machines == old(api.w.machines)[k := m.(rv := m.rv + 1)]
    ensures old(api.faults) == [] ==> api.faults == [] && (ok <==> m.rv == old(api.w).machines[k].rv)
  {
    hide Api.Valid, Inv, Legal;
    var reply := api.Write(PutMachine(k, m));
    ok := reply == Done;
  }

  method ResolveNADNameForDeletion(api: Api, k: Key, m: Machine, cluster: string) returns (ok: bool, nadName: string, m': Machine)
    requires api.Valid() && Deleting(api.w, k) && SameButNAD(api.w.machines[k], m)
    modifies api
    ensures api.Valid() && old(api.log) <= api.log
    ensures forall i :: |old(api.log)| <= i < |api.log| ==> api.log[i].PutMachine?
    ensures api.w == old(api.w).(machines := api.w.machines) && OnlyNADAnnotation(old(api.w.machines), api.w.machines, k)
    ensures SameButNAD(api.w.machines[k], m')
    ensures ok && m.nadToCleanup != "" ==> nadName == m.nadToCleanup
    ensures ok && m.nadToCleanup == "" ==> nadName == if Ref(cluster, k) in api.w.vms then ExtractNADName(api.w.vms[Ref(cluster, k)]) else ""
    ensures old(api.faults) == [] && m.rv == old(api.w).machines[k].rv ==>
              m'.rv == api.w.machines[k].rv && (nadName != "" && m.nadToCleanup == "" ==> api.w.machines[k].nadToCleanup == nadName)
    ensures old(api.faults) == [] ==> api.faults == [] && ok
  {
    hide Api.Valid;
    if m.nadToCleanup != "" {
      return true, m.nadToCleanup, m;
    }
    var got := api.Read();
    if !got {
      return false, "", m;
    }
    if Ref(cluster, k) !in api.w.vms {
      return true, "", m;
    }
    nadName := ExtractNADName(api.w.vms[Ref(cluster, k)]);
    if nadName == "" {
      return true, "", m;
    }
    m' := PutNADAnnotation(api, k, m, nadName);
    ok := true;
  }

  function StoppedVM(vm: VM): VM { vm.(running := false) }

  method StopIfRunning(api: Api, r: Ref) returns (ok: bool)
    requires api.Valid() && r in api.w.vms
    modifies api
    ensures api.Valid() && old(api.log) <= api.log
    ensures forall i :: |old(api.log)| <= i < |api.log| ==> api.log[i].UpdateVM?
    ensures api.w == old(api.w) || api.w == old(api.w).(vms := old(api.w.vms)[r := StoppedVM(old(api.w.vms)[r])])
    ensures ok ==> !api.w.vms[r].running
    ensures old(api.faults) == [] ==> api.faults == [] && ok
  {
    hide Api.Valid;
    if !api.w.vms[r].running {
      return true;
    }
    var reply := api.Write(UpdateVM(r, StoppedVM(api.w.vms[r])));
    ok := reply == Done;
  }

  /** The VM was left alone, stopped, marked terminating or removed; no other VM changed. */
  ghost predicate OnlyGoes(before: map<Ref, VM>, after: map<Ref, VM>, r: Ref) {
    && (forall x :: x != r ==> (x in before <==> x in after) && (x in before ==> after[x] == before[x]))
    && (r in after ==> r in before && after[r].held == before[r].held)
    && (r in before && before[r].held ==> r in after)
  }

  /** What decides where a Machine belongs, the VMs apart. */
  predicate SameConfigs(w: World, w': World) {
    w'.configs == w.configs && w'.defaultConfig == w.defaultConfig && w'.usable == w.usable && w'.clients == w.clients
  }

  method DeleteVirtualMachine(api: Api, r: Ref) returns (ok: bool)
    requires api.Valid() && Deleting(api.w, r.key)
    modifies api
    ensures api.Valid() && old(api.log) <= api.log
    ensures forall i :: |old(api.log)| <= i < |api.log| ==> api.log[i].UpdateVM? || api.log[i].DeleteVM?
    ensures api.w == old(api.w).(vms := api.w.vms) && OnlyGoes(old(api.w.vms), api.w.vms, r)
    ensures r in api.w.vms ==> api.w.vms[r] in {old(api.w.vms)[r], StoppedVM(old(api.w.vms)[r]), StoppedVM(old(api.w.vms)[r]).(terminating := true)}
    ensures ok ==> r in api.w.vms ==> api.w.vms[r].terminating
    ensures old(api.faults) == [] ==> (r in api.w.vms <==> r in old(api.w.vms) && old(api.w.vms)[r].held)
    ensures old(api.faults) == [] ==> api.faults == [] && ok
  {
    hide Api.Valid;
    var got := api.Read();
    if !got {
      return false;
    }
    if r !in api.w.vms {
      return true;
    }
    ghost var before := api.w.vms;
    assert !before[r].running ==> StoppedVM(before[r]) == before[r];
    ok := StopIfRunning(api, r);
    ghost var stopped := api.w.vms;
    assert stopped == before[r := stopped[r]] && (ok ==> stopped[r] == StoppedVM(before[r]));
    if !ok {
      return;
    }
    ok := SendDelete(api, r);
    GoneOrGoing(before, stopped, api.w.vms, r);
  }

  method SendDelete(api: Api, r: Ref) returns (ok: bool)
    requires api.Valid() && Deleting(api.w, r.key) && r in api.w.vms
    modifies api
    ensures api.Valid() && old(api.log) <= api.log
    ensures forall i :: |old(api.log)| <= i < |api.log| ==> api.log[i].DeleteVM?
    ensures api.w == old(api.w) || api.w == old(api.w).(vms := WithoutVM(old(api.w.vms), r))
    ensures ok ==> api.w == old(api.w).(vms := WithoutVM(old(api.w.vms), r))
    ensures old(api.faults) == [] ==> api.faults == [] && ok
  {
    hide Api.Valid, WithoutVM, Inv, Deleting;
    assert Legal(api.w, DeleteVM(r));
    hide Legal;
    var reply := api.Write(DeleteVM(r));
    ok := reply == Done || reply == Missing;
  }

  lemma GoneOrGoing(before: map<Ref, VM>, stopped: map<Ref, VM>, after: map<Ref, VM>, r: Ref)
    requires r in before && stopped == before[r := StoppedVM(before[r])] && after in {stopped, WithoutVM(stopped, r)}
    ensures OnlyGoes(before, after, r)
    ensures r in after ==> after[r] in {StoppedVM(before[r]), StoppedVM(before[r]).(terminating := true)}
    ensures after == WithoutVM(stopped, r) ==> (r in after <==> before[r].held) && (r in after ==> after[r].terminating)
  {
  }

  /** The NAD named on the Machine, then every orphaned NAD, then the annotation. */
  method FinalizeNADCleanup(api: Api, k: Key, m: Machine, nadName: string, cluster: string)
    requires api.Valid() && Deleting(api.w, k) && SameButNAD(api.w.machines[k], m)
    modifies api
    ensures api.Valid() && old(api.log) <= api.log
    ensures forall i :: |old(api.log)| <= i < |api.log| ==> api.log[i].DeleteNAD? || api.log[i].PutMachine?
    ensures api.w == old(api.w).(machines := api.w.machines, nads := api.w.nads)
    ensures OnlyNADAnnotation(old(api.w.machines), api.w.machines, k)
    ensures old(api.faults) == [] ==> api.faults == [] && forall r :: !NetworkManager.Orphaned(api.w, cluster, k.ns, r)
    ensures old(api.faults) == [] && nadName != "" && NoUser(old(api.w), NetworkManager.NADRef(cluster, k.ns, nadName)) ==>
              NetworkManager.NADRef(cluster, k.ns, nadName) !in api.w.nads
    ensures old(api.faults) == [] && nadName != "" && m.rv == old(api.w).machines[k].rv ==> api.w.machines[k].nadToCleanup == ""
  {
    hide Api.Valid;
    if nadName != "" {
      NetworkManager.CleanupNetworkAttachmentDefinition(api, NetworkManager.NADRef(cluster, k.ns, nadName));
    }
    label sweep:
    NetworkManager.CleanupOrphanedNADs(api, cluster, k.ns);
    assert old(api.faults) == [] ==> forall r :: !NetworkManager.Orphaned(api.w, cluster, k.ns, r) by {
      forall r | NetworkManager.Orphaned(api.w, cluster, k.ns, r)
        ensures NetworkManager.Orphaned(old@sweep(api.w), cluster, k.ns, r)
      {
        OrphanedBefore(old@sweep(api.w), api.w, cluster, k.ns, r);
      }
    }
    ghost var swept := api.w;
    if nadName != "" {
      var _ := PutNADAnnotation(api, k, m, "");
    }
    forall r | NetworkManager.Orphaned(api.w, cluster, k.ns, r) ensures NetworkManager.Orphaned(swept, cluster, k.ns, r) {
      OrphanedBefore(swept, api.w, cluster, k.ns, r);
    }
  }

  ghost predicate NoUser(w: World, nad: Ref) { forall v :: !NetworkManager.Uses(w, v, nad) }

  lemma OrphanedBefore(w: World, w': World, cluster: string, ns: string, r: Ref)
    requires w'.vms == w.vms && NetworkManager.Orphaned(w', cluster, ns, r) && r in w.nads && w.nads[r] == w'.nads[r]
    ensures NetworkManager.Orphaned(w, cluster, ns, r)
  {
    forall v ensures !NetworkManager.Uses(w, v, r) { NetworkManager.UsesDependOnVMs(w, w', v, r); }
  }

  // ---- cleanupRemoteResources ----

  predicate PVCsGoing(w: World, k: Key, cluster: string, r: Ref) {
    Storage.LabelledFor(w, k, cluster, r) ==> w.pvcs[r].terminating
  }

  /** Nothing on the cluster is left of the Machine. */
  ghost predicate RemoteGone(w: World, k: Key, cluster: string) {
    Ref(cluster, k) !in w.vms && forall r :: PVCsGoing(w, k, cluster, r)
  }

  lemma StillDeleting(w: World, w': World, k: Key)
    requires Deleting(w, k) && OnlyNADAnnotation(w.machines, w'.machines, k)
    ensures Deleting(w', k)
  {
  }

  datatype CleanupEnd = CleanupFailed | VMStillThere | CleanedUp

  /** Find the NAD while the VM can still tell, then delete the PVCs. */
  method FreeClaims(api: Api, k: Key, m: Machine, cluster: string) returns (ok: bool, nadName: string, m': Machine)
    requires api.Valid() && Deleting(api.w, k) && api.w.machines[k] == m
    modifies api
    ensures api.Valid() && old(api.log) <= api.log
    ensures forall i :: |old(api.log)| <= i < |api.log| ==> api.log[i].PutMachine? || api.log[i].DeletePVC?
    ensures api.w == old(api.w).(machines := api.w.machines, pvcs := api.w.pvcs)
    ensures OnlyNADAnnotation(old(api.w.machines), api.w.machines, k) && SameButNAD(api.w.machines[k], m')
    ensures ok ==> forall r :: PVCsGoing(api.w, k, cluster, r)
    ensures ok && m.nadToCleanup != "" ==> nadName == m.nadToCleanup
    ensures ok && m.nadToCleanup == "" ==> nadName == if Ref(cluster, k) in old(api.w.vms) then ExtractNADName(old(api.w.vms)[Ref(cluster, k)]) else ""
    ensures old(api.faults) == [] ==> api.faults == [] && ok
  {
    assert SameButNAD(m, m);
    hide Api.Valid, Inv, Storage.Winnowed, Storage.LabelledFor, PVCsGoing;
    ghost var w0 := api.w;
    ok, nadName, m' := ResolveNADNameForDeletion(api, k, m, cluster);
    StillDeleting(w0, api.w, k);
    if ok {
      ok := Storage.DeleteAssociatedPVCs(api, k, cluster);
      if ok { AllGoing(api.w, k, cluster); }
    }
  }

  /** The steps in front of the VM's deletion: find the NAD, delete the PVCs, maybe delete the NAD. */
  method BeforeVMDeletion(api: Api, k: Key, m: Machine, cluster: string) returns (ok: bool, nadName: string, m': Machine)
    requires api.Valid() && Deleting(api.w, k) && api.w.machines[k] == m
    modifies api
    ensures api.Valid() && old(api.log) <= api.log
    ensures forall i :: |old(api.log)| <= i < |api.log| ==> !CreatesRemote(api.log[i])
    ensures api.w == old(api.w).(machines := api.w.machines, pvcs := api.w.pvcs, nads := api.w.nads)
    ensures OnlyNADAnnotation(old(api.w.machines), api.w.machines, k) && SameButNAD(api.w.machines[k], m')
    ensures ok ==> forall r :: PVCsGoing(api.w, k, cluster, r)
    ensures old(api.faults) == [] ==> api.faults == [] && ok
    ensures ok && m.nadToCleanup != "" ==> nadName == m.nadToCleanup
    ensures ok && m.nadToCleanup == "" ==> nadName == if Ref(cluster, k) in old(api.w.vms) then ExtractNADName(old(api.w.vms)[Ref(cluster, k)]) else ""
    ensures old(api.faults) == [] && nadName != "" && (forall v :: NetworkManager.Uses(old(api.w), v, NetworkManager.NADRef(cluster, k.ns, nadName)) ==> v.key.name == k.name) ==>
              NetworkManager.NADRef(cluster, k.ns, nadName) !in api.w.nads
  {
    hide Api.Valid, Inv, NetworkManager.Uses, PVCsGoing, Pruned, ExtractNADName;
    ghost var w0 := api.w;
    ok, nadName, m' := FreeClaims(api, k, m, cluster);
    ghost var w1 := api.w;
    StillDeleting(w0, w1, k);
    if nadName != "" { UsersDependOnVMs(w0, w1, NetworkManager.NADRef(cluster, k.ns, nadName)); }
    if ok && nadName != "" {
      NetworkManager.CleanupNADIfUnusedByOtherVMs(api, NetworkManager.NADRef(cluster, k.ns, nadName), k.name);
    }
    if ok { PVCsStayGone(w1, api.w, k, cluster); }
  }

  lemma UsersDependOnVMs(w: World, w': World, nad: Ref)
    requires w'.vms == w.vms
    ensures forall v :: NetworkManager.Uses(w, v, nad) == NetworkManager.Uses(w', v, nad)
  {
    forall v ensures NetworkManager.Uses(w, v, nad) == NetworkManager.Uses(w', v, nad) { NetworkManager.UsesDependOnVMs(w, w', v, nad); }
  }

  lemma AllGoing(w: World, k: Key, cluster: string)
    requires forall r :: Storage.LabelledFor(w, k, cluster, r) ==> w.pvcs[r].terminating
    ensures forall r :: PVCsGoing(w, k, cluster, r)
  {
  }

  /**
    Deletes the PVCs, maybe the NAD, then the VM; waits while the VM still exists; then collects what is shared.
    It creates nothing, and reports success only when nothing of the Machine is left on the cluster.
  */
  method CleanupRemoteResources(api: Api, k: Key, m: Machine, cluster: string) returns (end: CleanupEnd)
    requires api.Valid() && Deleting(api.w, k) && api.w.machines[k] == m
    modifies api
    ensures api.Valid() && old(api.log) <= api.log
    ensures forall i :: |old(api.log)| <= i < |api.log| ==> !CreatesRemote(api.log[i])
    ensures OnlyNADAnnotation(old(api.w.machines), api.w.machines, k)
    ensures api.w.ncs == old(api.w.ncs) && OnlyGoes(old(api.w.vms), api.w.vms, Ref(cluster, k))
    ensures SameConfigs(old(api.w), api.w)
    ensures end == CleanedUp ==> RemoteGone(api.w, k, cluster)
    ensures old(api.faults) == [] ==> (Ref(cluster, k) in api.w.vms <==> Ref(cluster, k) in old(api.w.vms) && old(api.w.vms)[Ref(cluster, k)].held)
    ensures old(api.faults) == [] ==> api.faults == [] && end == if Ref(cluster, k) in api.w.vms then VMStillThere else CleanedUp
    ensures old(api.faults) == [] && Ref(cluster, k) in api.w.vms ==> api.w.vms[Ref(cluster, k)].terminating
    ensures old(api.faults) == [] && end == CleanedUp ==> forall r :: !NetworkManager.Orphaned(api.w, cluster, k.ns, r)
    ensures old(api.faults) == [] && end == CleanedUp && api.w.shared ==> forall r :: !SharedISO.Collectable(api.w, cluster, k.ns, r)
  {
    hide Api.Valid, Inv, NetworkManager.Orphaned, SharedISO.Collectable, PVCsGoing, OnlyGoes, OnlyNADAnnotation;
    ghost var w0 := api.w;
    SameVMsGo(w0.vms, Ref(cluster, k));
    var ok, nadName, m' := BeforeVMDeletion(api, k, m, cluster);
    ghost var w1 := api.w;
    StillDeleting(w0, w1, k);
    if !ok {
      return CleanupFailed;
    }
    end := DeleteAndCollect(api, k, m', nadName, cluster);
    PVCsStayGone(w1, api.w, k, cluster);
    OnlyNADTwice(w0.machines, w1.machines, api.w.machines, k);
  }

  lemma OnlyNADTwice(a: map<Key, Machine>, b: map<Key, Machine>, c: map<Key, Machine>, k: Key)
    requires OnlyNADAnnotation(a, b, k) && OnlyNADAnnotation(b, c, k)
    ensures OnlyNADAnnotation(a, c, k)
  {
  }

  /** The VM itself, and what is shared once it is gone. */
  method DeleteAndCollect(api: Api, k: Key, m: Machine, nadName: string, cluster: string) returns (end: CleanupEnd)
    requires api.Valid() && Deleting(api.w, k) && SameButNAD(api.w.machines[k], m)
    modifies api
    ensures api.Valid() && old(api.log) <= api.log
    ensures forall i :: |old(api.log)| <= i < |api.log| ==> !CreatesRemote(api.log[i])
    ensures api.w == old(api.w).(machines := api.w.machines, vms := api.w.vms, nads := api.w.nads, dvs := api.w.dvs)
    ensures OnlyNADAnnotation(old(api.w.machines), api.w.machines, k) && OnlyGoes(old(api.w.vms), api.w.vms, Ref(cluster, k))
    ensures end == CleanedUp ==> Ref(cluster, k) !in api.w.vms
    ensures old(api.faults) == [] ==> api.faults == [] && end == if Ref(cluster, k) in api.w.vms then VMStillThere else CleanedUp
    ensures old(api.faults) == [] ==> (Ref(cluster, k) in api.w.vms <==> Ref(cluster, k) in old(api.w.vms) && old(api.w.vms)[Ref(cluster, k)].held)
    ensures old(api.faults) == [] && Ref(cluster, k) in api.w.vms ==> api.w.vms[Ref(cluster, k)].terminating
    ensures old(api.faults) == [] && end == CleanedUp ==> forall r :: !NetworkManager.Orphaned(api.w, cluster, k.ns, r)
    ensures old(api.faults) == [] && end == CleanedUp && api.w.shared ==> forall r :: !SharedISO.Collectable(api.w, cluster, k.ns, r)
  {
    SameMachines(api.w.machines, k);
    hide Api.Valid, Inv, NetworkManager.Orphaned, SharedISO.Collectable, OnlyGoes, OnlyNADAnnotation;
    end := CleanupFailed;
    var ok := DeleteVirtualMachine(api, Ref(cluster, k));
    if ok {
      end := CollectIfGone(api, k, m, nadName, cluster);
    }
  }

  lemma SameMachines(machines: map<Key, Machine>, k: Key)
    ensures k in machines ==> OnlyNADAnnotation(machines, machines, k)
  {
  }

  /** Whether the VM still exists; the collectors run once it does not. */
  method CollectIfGone(api: Api, k: Key, m: Machine, nadName: string, cluster: string) returns (end: CleanupEnd)
    requires api.Valid() && Deleting(api.w, k) && SameButNAD(api.w.machines[k], m)
    modifies api
    ensures api.Valid() && old(api.log) <= api.log
    ensures forall i :: |old(api.log)| <= i < |api.log| ==> !CreatesRemote(api.log[i])
    ensures api.w == old(api.w).(machines := api.w.machines, nads := api.w.nads, dvs := api.w.dvs)
    ensures OnlyNADAnnotation(old(api.w.machines), api.w.machines, k)
    ensures end != CleanupFailed ==> end == if Ref(cluster, k) in old(api.w.vms) then VMStillThere else CleanedUp
    ensures old(api.faults) == [] ==> api.faults == [] && end != CleanupFailed
    ensures old(api.faults) == [] && end == CleanedUp ==> forall r :: !NetworkManager.Orphaned(api.w, cluster, k.ns, r)
    ensures old(api.faults) == [] && end == CleanedUp && api.w.shared ==> forall r :: !SharedISO.Collectable(api.w, cluster, k.ns, r)
  {
    hide Api.Valid, Inv, NetworkManager.Orphaned, SharedISO.Collectable;
    var got := api.Read();
    if !got {
      return CleanupFailed;
    }
    if Ref(cluster, k) in api.w.vms {
      return VMStillThere;
    }
    CollectShared(api, k, m, nadName, cluster);
    end := CleanedUp;
  }

  lemma SameVMsGo(vms: map<Ref, VM>, r: Ref)
    ensures OnlyGoes(vms, vms, r)
  {
  }

  lemma PVCsStayGone(w: World, w': World, k: Key, cluster: string)
    requires (forall r :: PVCsGoing(w, k, cluster, r)) && w'.pvcs == w.pvcs
    ensures forall r :: PVCsGoing(w', k, cluster, r)
  {
    forall r ensures PVCsGoing(w', k, cluster, r) { assert PVCsGoing(w, k, cluster, r); }
  }

  /** The two collectors that run once the VM is gone. */
  method CollectShared(api: Api, k: Key, m: Machine, nadName: string, cluster: string)
    requires api.Valid() && Deleting(api.w, k) && SameButNAD(api.w.machines[k], m)
    modifies api
    ensures api.Valid() && old(api.log) <= api.log
    ensures forall i :: |old(api.log)| <= i < |api.log| ==> !CreatesRemote(api.log[i])
    ensures api.w == old(api.w).(machines := api.w.machines, nads := api.w.nads, dvs := api.w.dvs)
    ensures OnlyNADAnnotation(old(api.w.machines), api.w.machines, k)
    ensures old(api.faults) == [] ==> api.faults == [] && forall r :: !NetworkManager.Orphaned(api.w, cluster, k.ns, r)
    ensures old(api.faults) == [] && api.w.shared ==> forall r :: !SharedISO.Collectable(api.w, cluster, k.ns, r)
  {
    hide Api.Valid, NetworkManager.Orphaned, SharedISO.Collectable;
    ghost var w0 := api.w;
    SharedISO.GCOrphanedSharedISOs(api, cluster, k.ns);
    ghost var w1 := api.w;
    FinalizeNADCleanup(api, k, m, nadName, cluster);
    forall r | SharedISO.Collectable(api.w, cluster, k.ns, r) && api.w.shared ensures SharedISO.Collectable(w0, cluster, k.ns, r) {
      CollectableBefore(w0, api.w, cluster, k.ns, r);
    }
    assert forall r :: SharedISO.Collectable(api.w, cluster, k.ns, r) ==> r in w1.dvs by {
      forall r | SharedISO.Collectable(api.w, cluster, k.ns, r) ensures r in w1.dvs { CollectableExists(api.w, cluster, k.ns, r); }
    }
  }

  lemma CollectableExists(w: World, cluster: string, ns: string, r: Ref)
    requires SharedISO.Collectable(w, cluster, ns, r)
    ensures r in w.dvs
  {
  }

  lemma CollectableBefore(w: World, w': World, cluster: string, ns: string, r: Ref)
    requires w'.vms == w.vms && w'.vmis == w.vmis && forall x :: x in w'.dvs ==> x in w.dvs && w.dvs[x] == w'.dvs[x]
    requires SharedISO.Collectable(w', cluster, ns, r)
    ensures SharedISO.Collectable(w, cluster, ns, r)
  {
    SharedISO.CollectableDependsOn(w', w, cluster, ns, r);
  }

  // ---- handleDeletion ----

  lemma ReleasedWhenGone(w: World, k: Key, cluster: string)
    requires Inv(w) && k in w.machines && (w.machines[k].config == "" || w.machines[k].config == cluster)
    requires RemoteGone(w, k, cluster) && NetworkConfig.NCGone(w, k)
    ensures Released(w, k)
  {
    forall r | LabelledLive(w, r) ensures Key(r.key.ns, w.pvcs[r].sourceMachine.value) != k {
      assert Anchors(w, Key(r.key.ns, w.pvcs[r].sourceMachine.value), r.cluster);
      assert PVCsGoing(w, k, cluster, r);
    }
  }

  lemma NoOwnedWhenGone(w: World, k: Key, cluster: string)
    requires Inv(w) && k in w.machines && (w.machines[k].config == "" || w.machines[k].config == cluster)
    requires Ref(cluster, k) !in w.vms
    ensures NoOwnedVM(w, k)
  {
  }

  method RemoveMachineFinalizer(api: Api, k: Key) returns (ok: bool)
    requires api.Valid() && Deleting(api.w, k) && Released(api.w, k)
    modifies api
    ensures api.Valid() && old(api.log) <= api.log
    ensures forall i :: |old(api.log)| <= i < |api.log| ==> api.log[i].PutMachine?
    ensures api.w == old(api.w).(machines := api.w.machines)
    ensures var m := old(api.w.machines)[k];
            api.w.machines == old(api.w.machines) || api.w.machines == old(api.w.machines)[k := m.(finalizer := false, rv := m.rv + 1)]
    ensures ok ==> !api.w.machines[k].finalizer
    ensures old(api.faults) == [] ==> api.faults == [] && ok
  {
    hide Api.Valid, Released;
    var got := api.Read();
    if !got {
      return false;
    }
    var latest := api.w.machines[k];
    var reply := api.Write(PutMachine(k, latest.(finalizer := false)));
    ok := reply == Done;
  }

  /** VM live, VM terminating, VM gone, finalizer gone. */
  function DeletionRank(w: World, k: Key, cluster: string): nat {
    if Ref(cluster, k) in w.vms then (if w.vms[Ref(cluster, k)].terminating then 2 else 3)
    else if k in w.machines && w.machines[k].finalizer then 1
    else 0
  }

  /** The pass released the Machine, or found its VM terminating and kept all that the next pass needs. */
  ghost predicate DeletionAdvances(w: World, w': World, k: Key, cluster: string) {
    || DeletionRank(w', k, cluster) == 0
    || (DeletionRank(w', k, cluster) == 2 <= DeletionRank(w, k, cluster)
        && k in w.machines && k in w'.machines && SameButNAD(w.machines[k], w'.machines[k])
        && w'.ncs == w.ncs && SameConfigs(w, w') && OnlyGoes(w.vms, w'.vms, Ref(cluster, k)) && w'.vms[Ref(cluster, k)].held)
  }

  lemma WaitingAdvances(w: World, w': World, k: Key, cluster: string)
    requires OnlyNADAnnotation(w.machines, w'.machines, k) && OnlyGoes(w.vms, w'.vms, Ref(cluster, k))
    requires Ref(cluster, k) in w'.vms && w'.vms[Ref(cluster, k)].terminating && w'.vms[Ref(cluster, k)].held
    requires w'.ncs == w.ncs && SameConfigs(w, w')
    ensures DeletionAdvances(w, w', k, cluster)
  {
  }

  lemma ReleaseAdvances(w: World, w': World, k: Key, cluster: string)
    requires Ref(cluster, k) !in w'.vms && (k in w'.machines ==> !w'.machines[k].finalizer)
    ensures DeletionAdvances(w, w', k, cluster)
  {
  }

  /** The cluster can be resolved, and the NetworkConfiguration passes its ownership checks. */
  predicate CanDelete(w: World, k: Key, m: Machine) {
    m.finalizer && Placement.PlacementOf(w, k, m.config) != ""
    && (k in w.ncs ==> NetworkConfig.NCMatches(w.ncs[k], k, m.statusMacs))
  }

  /** An unheld VM of the Machine's name on a cluster the search can reach. */
  predicate FindsUnheldVM(w: World, k: Key) {
    exists c :: c in w.configs && Placement.HasVM(w, c, k) && !w.vms[Ref(c, k)].held
  }

  /** A config is named and reachable; or none is named and the search can find an unheld VM. */
  predicate Releasable(w: World, k: Key, m: Machine) {
    var named := Placement.NamedConfig(w, m.config);
    if named != "" then Reachable(w, named) else FindsUnheldVM(w, k)
  }

  predicate NCAllows(w: World, k: Key, m: Machine) {
    k in w.ncs ==> NetworkConfig.NCMatches(w.ncs[k], k, m.statusMacs)
  }

  predicate Finalizing(w: World, k: Key) { k in w.machines && w.machines[k].deleting && w.machines[k].finalizer }

  /** The exact condition for a deleting Machine to be released. */
  predicate CanRelease(w: World, k: Key) {
    Finalizing(w, k) && Releasable(w, k, w.machines[k]) && NCAllows(w, k, w.machines[k])
  }

  predicate Stuck(w: World, k: Key) { Finalizing(w, k) && !CanRelease(w, k) }

  lemma CanReleaseIsPlaced(w: World, k: Key)
    requires CanRelease(w, k)
    ensures CanDelete(w, k, w.machines[k])
  {
    if Placement.NamedConfig(w, w.machines[k].config) == "" {
      var c :| c in w.configs && Placement.HasVM(w, c, k) && !w.vms[Ref(c, k)].held;
      Placement.SomeMeansFirst(w, w.configs, k, c);
    }
  }

  /** VMs are only removed, or changed without touching what holds them. */
  ghost predicate OnlyFewerVMs(before: map<Ref, VM>, after: map<Ref, VM>) {
    forall r :: r in after ==> r in before && after[r].held == before[r].held
  }

  /** Nothing a stuck deletion does, and no VM that vanishes, gets it unstuck. */
  lemma StuckStays(w: World, w': World, k: Key)
    requires Stuck(w, k) && k in w'.machines && SameButNAD(w.machines[k], w'.machines[k])
    requires SameConfigs(w, w') && w'.ncs == w.ncs && OnlyFewerVMs(w.vms, w'.vms)
    ensures Stuck(w', k)
  {
    hide NetworkConfig.NCMatches;
    if FindsUnheldVM(w', k) {
      var c :| c in w'.configs && Placement.HasVM(w', c, k) && !w'.vms[Ref(c, k)].held;
      assert Placement.HasVM(w, c, k) && !w.vms[Ref(c, k)].held;
    }
  }

  /** Whatever the search finds for a stuck Machine whose NetworkConfiguration allows release is held. */
  lemma StuckFindsHeld(w: World, k: Key, c: string)
    requires Stuck(w, k) && NCAllows(w, k, w.machines[k])
    requires c != "" && Reachable(w, c)
    requires var named := Placement.NamedConfig(w, w.machines[k].config);
             if named != "" then c == named else c in w.configs && Placement.HasVM(w, c, k)
    ensures Ref(c, k) in w.vms && w.vms[Ref(c, k)].held
  {
  }

  /**
    Deletion never creates a remote object. A failure-free pass over a Machine that can be deleted releases it,
    unless it leaves the VM terminating. No pass, whatever fails, releases a stuck Machine or gets it unstuck.
  */
  method HandleDeletion(api: Api, k: Key, m: Machine) returns (ok: bool)
    requires api.Valid() && k in api.w.machines && api.w.machines[k] == m && m.deleting
    modifies api
    ensures api.Valid() && old(api.log) <= api.log
    ensures forall i :: |old(api.log)| <= i < |api.log| ==> !CreatesRemote(api.log[i])
    ensures k in api.w.machines && api.w.machines == old(api.w.machines)[k := api.w.machines[k]]
    ensures old(api.faults) == [] ==> api.faults == []
    ensures old(api.faults) == [] && CanDelete(old(api.w), k, m) ==>
              DeletionAdvances(old(api.w), api.w, k, Placement.PlacementOf(old(api.w), k, m.config))
    ensures Stuck(old(api.w), k) ==> Stuck(api.w, k)
    ensures m.finalizer && Placement.PlacementOf(old(api.w), k, m.config) == "" ==> api.w == old(api.w) && !ok
  {
    hide Api.Valid, Inv, RemoteGone, NetworkManager.Orphaned, SharedISO.Collectable, Placement.PlacementOf, NetworkConfig.NCMatches, Released, DeletionAdvances, Stuck, Reachable, Placement.NamedConfig;
    ghost var w0 := api.w;
    if !m.finalizer {
      NotStuck(w0, k);
      return true;
    }
    ConfigsNamed(api);
    var cluster, needsAnnotation;
    ok, cluster, needsAnnotation := Placement.GetOrCreateClientFromMachine(api, k, m);
    if !ok {
      return;
    }
    ok := DeleteOn(api, k, m, cluster);
  }

  lemma NotStuck(w: World, k: Key)
    requires k in w.machines && !w.machines[k].finalizer
    ensures !Stuck(w, k)
  {
  }

  /** The cluster the client was found for. */
  predicate IsPlaceOf(w: World, k: Key, m: Machine, c: string) {
    && c != "" && Reachable(w, c)
    && (var named := Placement.NamedConfig(w, m.config); if named != "" then c == named else c in w.configs && Placement.HasVM(w, c, k))
  }

  /** The deletion flow once a client for the cluster is there. */
  method DeleteOn(api: Api, k: Key, m: Machine, cluster: string) returns (ok: bool)
    requires api.Valid() && k in api.w.machines && api.w.machines[k] == m && m.deleting && m.finalizer
    requires (m.config == "" || m.config == cluster) && IsPlaceOf(api.w, k, m, cluster)
    modifies api
    ensures api.Valid() && old(api.log) <= api.log
    ensures forall i :: |old(api.log)| <= i < |api.log| ==> !CreatesRemote(api.log[i])
    ensures k in api.w.machines && api.w.machines == old(api.w.machines)[k := api.w.machines[k]]
    ensures old(api.faults) == [] ==> api.faults == [] && (NCAllows(old(api.w), k, m) ==> DeletionAdvances(old(api.w), api.w, k, cluster))
    ensures Stuck(old(api.w), k) ==> Stuck(api.w, k)
  {
    hide Api.Valid, Inv, RemoteGone, NetworkManager.Orphaned, SharedISO.Collectable, NetworkConfig.NCMatches, Released, DeletionAdvances, Stuck, IsPlaceOf, SameConfigs;
    ghost var w0 := api.w;
    var end := CleanupRemoteResources(api, k, m, cluster);
    ghost var w1 := api.w;
    CleanupKeepsStuck(w0, w1, k, cluster);
    if end != CleanedUp {
      if old(api.faults) == [] { WaitingAdvances(w0, api.w, k, cluster); }
      return end == VMStillThere;
    }
    GoneMeansAbsent(w1, k, cluster);
    ok := FinishDeletion(api, k, m, cluster);
    if ok { ReleaseAdvances(w0, api.w, k, cluster); }
    FinishKeepsStuck(w0, w1, api.w, k, cluster);
  }

  lemma CleanupKeepsStuck(w: World, w': World, k: Key, cluster: string)
    requires OnlyNADAnnotation(w.machines, w'.machines, k) && w'.ncs == w.ncs && SameConfigs(w, w')
    requires OnlyGoes(w.vms, w'.vms, Ref(cluster, k))
    ensures Stuck(w, k) ==> Stuck(w', k)
  {
    hide NetworkConfig.NCMatches;
    if Stuck(w, k) { StuckStays(w, w', k); }
  }

  /** A stuck Machine gets this far only because its NetworkConfiguration forbids its release. */
  lemma FinishKeepsStuck(w0: World, w1: World, w2: World, k: Key, cluster: string)
    requires k in w0.machines && IsPlaceOf(w0, k, w0.machines[k], cluster) && (Stuck(w0, k) ==> Stuck(w1, k))
    requires Ref(cluster, k) !in w1.vms && OnlyGoes(w0.vms, w1.vms, Ref(cluster, k))
    requires !NCAllows(w0, k, w0.machines[k]) ==> w2 == w1
    ensures Stuck(w0, k) ==> Stuck(w2, k)
  {
    hide NetworkConfig.NCMatches;
    if Stuck(w0, k) && NCAllows(w0, k, w0.machines[k]) {
      StuckFindsHeld(w0, k, cluster);
    }
  }

  method ReleaseNC(api: Api, k: Key, m: Machine, cluster: string) returns (ok: bool)
    requires api.Valid() && Deleting(api.w, k) && (api.w.machines[k].config == "" || api.w.machines[k].config == cluster)
    requires RemoteGone(api.w, k, cluster)
    modifies api
    ensures api.Valid() && old(api.log) <= api.log
    ensures forall i :: |old(api.log)| <= i < |api.log| ==> api.log[i] == DeleteNC(k)
    ensures api.w == old(api.w).(ncs := api.w.ncs) && RemoteGone(api.w, k, cluster)
    ensures ok ==> NetworkConfig.NCGone(api.w, k)
    ensures !NCAllows(old(api.w), k, m) ==> !ok && api.w == old(api.w)
    ensures old(api.faults) == [] ==> api.faults == [] && (ok <==> NCAllows(old(api.w), k, m))
  {
    hide Api.Valid, Inv, RemoteGone, NetworkConfig.NCMatches, NetworkConfig.NCGone, NoOwnedVM, NetworkConfig.OnlyNC;
    ghost var w0 := api.w;
    InvOf(api);
    GoneMeansAbsent(w0, k, cluster);
    NoOwnedWhenGone(w0, k, cluster);
    ok := NetworkConfig.CleanupNetworkConfiguration(api, k, m.statusMacs);
    NetworkConfig.OnlyNCFrame(w0, api.w, k);
    GoneDependsOn(w0, api.w, k, cluster);
  }

  /** With the remote side gone: the NetworkConfiguration, then the finalizer. */
  method FinishDeletion(api: Api, k: Key, m: Machine, cluster: string) returns (ok: bool)
    requires api.Valid() && Deleting(api.w, k) && (api.w.machines[k].config == "" || api.w.machines[k].config == cluster)
    requires RemoteGone(api.w, k, cluster)
    modifies api
    ensures api.Valid() && old(api.log) <= api.log
    ensures forall i :: |old(api.log)| <= i < |api.log| ==> !CreatesRemote(api.log[i])
    ensures k in api.w.machines && api.w.machines == old(api.w.machines)[k := api.w.machines[k]]
    ensures Ref(cluster, k) !in api.w.vms && (ok ==> !api.w.machines[k].finalizer)
    ensures !NCAllows(old(api.w), k, m) ==> !ok && api.w == old(api.w)
    ensures old(api.faults) == [] ==> api.faults == [] && (ok <==> NCAllows(old(api.w), k, m))
  {
    hide Api.Valid, Inv, RemoteGone, NetworkConfig.NCGone, Released, NCAllows;
    GoneMeansAbsent(api.w, k, cluster);
    ok := ReleaseNC(api, k, m, cluster);
    if ok {
      ok := Release(api, k, cluster);
    }
  }

  method Release(api: Api, k: Key, cluster: string) returns (ok: bool)
    requires api.Valid() && Deleting(api.w, k) && (api.w.machines[k].config == "" || api.w.machines[k].config == cluster)
    requires RemoteGone(api.w, k, cluster) && NetworkConfig.NCGone(api.w, k)
    modifies api
    ensures api.Valid() && old(api.log) <= api.log
    ensures forall i :: |old(api.log)| <= i < |api.log| ==> api.log[i].PutMachine?
    ensures api.w == old(api.w).(machines := api.w.machines)
    ensures k in api.w.machines && api.w.machines == old(api.w.machines)[k := api.w.machines[k]]
    ensures ok ==> !api.w.machines[k].finalizer
    ensures old(api.faults) == [] ==> api.faults == [] && ok
  {
    hide Api.Valid, Inv, RemoteGone, NetworkConfig.NCGone, Released;
    InvOf(api);
    ReleasedWhenGone(api.w, k, cluster);
    ok := RemoveMachineFinalizer(api, k);
  }

  lemma GoneMeansAbsent(w: World, k: Key, cluster: string)
    requires RemoteGone(w, k, cluster)
    ensures Ref(cluster, k) !in w.vms
  {
  }

  lemma GoneDependsOn(w: World, w': World, k: Key, cluster: string)
    requires RemoteGone(w, k, cluster) && w'.vms == w.vms && w'.pvcs == w.pvcs
    ensures RemoteGone(w', k, cluster)
  {
    forall r ensures PVCsGoing(w', k, cluster, r) { assert PVCsGoing(w, k, cluster, r); }
  }
}
