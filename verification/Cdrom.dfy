/** internal/machine/vm/cdrom_manager.go: detaching the boot CDROM and freeing a per-VM boot ISO. */
module Cdrom {
  import opened Wrappers
  import opened Objects
  import opened Worlds
  import opened Fleet
  import opened Apis
  import opened Filters
  import opened VmSpec
  import Storage

  // ---- the decision ----

  predicate IsMarkedForCDROMRemoval(spec: MachineSpec) {
    spec.cdromEjected || spec.osInstalled
  }

  predicate IsGuestAgentConnected(vmi: Option<VMI>) {
    vmi.Some? && vmi.value.agentConnected
  }

  predicate HasCDROMVolume(vm: Option<VM>) {
    vm.Some? && vm.value.template.Some? &&
    exists i :: 0 <= i < |vm.value.template.value.volumes| && vm.value.template.value.volumes[i].name == CDROM_VOLUME_NAME
  }

  predicate ShouldCleanupISO(m: Machine, vm: Option<VM>, vmi: Option<VMI>) {
    IsMarkedForCDROMRemoval(m.spec) && IsGuestAgentConnected(vmi) && (!m.isoCleanedUp || HasCDROMVolume(vm))
  }

  function Lookup<V>(m: map<Ref, V>, r: Ref): Option<V> {
    if r in m then Some(m[r]) else None
  }

  // ---- stripping ----

  predicate OtherDisk(d: Disk) { d.name != CDROM_VOLUME_NAME }
  predicate OtherVolume(v: Volume) { v.name != CDROM_VOLUME_NAME }
  function OtherThan(name: string): string -> bool { t => t != name }

  function StrippedTemplate(t: Template): Template {
    t.(disks := Keep(t.disks, OtherDisk), volumes := Keep(t.volumes, OtherVolume))
  }

  function Stripped(vm: VM, vmName: string): VM {
    vm.(dvts := Keep(vm.dvts, OtherThan(ISOResourceName(vmName))),
        template := if vm.template.None? then None else Some(StrippedTemplate(vm.template.value)))
  }

  lemma UnnamedIsKept(vm: VM, vmName: string)
    requires !NamesCdrom(vm, vmName)
    ensures Stripped(vm, vmName) == vm
  {
    var iso := ISOResourceName(vmName);
    assert forall i :: 0 <= i < |vm.dvts| ==> OtherThan(iso)(vm.dvts[i]);
    KeepAll(vm.dvts, OtherThan(iso));
    if vm.template.Some? {
      var t := vm.template.value;
      assert forall i :: 0 <= i < |t.disks| ==> OtherDisk(t.disks[i]);
      assert forall i :: 0 <= i < |t.volumes| ==> OtherVolume(t.volumes[i]);
      KeepAll(t.disks, OtherDisk);
      KeepAll(t.volumes, OtherVolume);
    }
  }

  lemma StrippedIsUnnamed(vm: VM, vmName: string)
    ensures !NamesCdrom(Stripped(vm, vmName), vmName)
  {
    var s := Stripped(vm, vmName);
    KeepMembers(vm.dvts, OtherThan(ISOResourceName(vmName)), ISOResourceName(vmName));
    if vm.template.Some? {
      var t := s.template.value;
      forall i | 0 <= i < |t.disks| ensures t.disks[i].name != CDROM_VOLUME_NAME {
        KeepMembers(vm.template.value.disks, OtherDisk, t.disks[i]);
      }
      forall i | 0 <= i < |t.volumes| ensures t.volumes[i].name != CDROM_VOLUME_NAME {
        KeepMembers(vm.template.value.volumes, OtherVolume, t.volumes[i]);
      }
    }
  }

  /** Stripping changes a VM exactly when it names the CDROM, leaves it not naming it, and is idempotent. */
  lemma StrippedIffNamed(vm: VM, vmName: string)
    ensures Stripped(vm, vmName) == vm <==> !NamesCdrom(vm, vmName)
    ensures !NamesCdrom(Stripped(vm, vmName), vmName)
    ensures Stripped(Stripped(vm, vmName), vmName) == Stripped(vm, vmName)
  {
    hide Stripped, NamesCdrom;
    StrippedIsUnnamed(vm, vmName);
    UnnamedIsKept(Stripped(vm, vmName), vmName);
    if !NamesCdrom(vm, vmName) { UnnamedIsKept(vm, vmName); }
  }

  /** All other disks, volumes and templates stay, each as often as before and in the same order. */
  lemma StrippedKeepsTheRest(vm: VM, vmName: string, d: Disk, v: Volume, t: string, i: nat, j: nat)
    requires vm.template.Some? && i <= |vm.template.value.disks| && j <= |vm.template.value.volumes|
    ensures var before, after := vm.template.value, Stripped(vm, vmName).template.value;
            && (d.name != CDROM_VOLUME_NAME ==> multiset(after.disks)[d] == multiset(before.disks)[d])
            && (v.name != CDROM_VOLUME_NAME ==> multiset(after.volumes)[v] == multiset(before.volumes)[v])
            && (t != ISOResourceName(vmName) ==> multiset(Stripped(vm, vmName).dvts)[t] == multiset(vm.dvts)[t])
            && after.disks == Keep(before.disks[..i], OtherDisk) + Keep(before.disks[i..], OtherDisk)
            && after.volumes == Keep(before.volumes[..j], OtherVolume) + Keep(before.volumes[j..], OtherVolume)
  {
    var before := vm.template.value;
    KeepCounts(before.disks, OtherDisk, d);
    KeepCounts(before.volumes, OtherVolume, v);
    KeepCounts(vm.dvts, OtherThan(ISOResourceName(vmName)), t);
    assert before.disks == before.disks[..i] + before.disks[i..];
    KeepAppends(before.disks[..i], before.disks[i..], OtherDisk);
    assert before.volumes == before.volumes[..j] + before.volumes[j..];
    KeepAppends(before.volumes[..j], before.volumes[j..], OtherVolume);
  }

  method FilterDisks(disks: seq<Disk>) returns (filtered: seq<Disk>, changed: bool)
    ensures filtered == Keep(disks, OtherDisk)
    ensures changed <==> exists i :: 0 <= i < |disks| && disks[i].name == CDROM_VOLUME_NAME
  {
    filtered, changed := [], false;
    for i := 0 to |disks|
      invariant filtered == Keep(disks[..i], OtherDisk)
      invariant changed <==> exists j :: 0 <= j < i && disks[j].name == CDROM_VOLUME_NAME
    {
      KeepOne(disks, i, OtherDisk);
      if disks[i].name == CDROM_VOLUME_NAME {
        changed := true;
        continue;
      }
      filtered := filtered + [disks[i]];
    }
    assert disks[..|disks|] == disks;
  }

  method FilterVolumes(volumes: seq<Volume>) returns (filtered: seq<Volume>, changed: bool)
    ensures filtered == Keep(volumes, OtherVolume)
    ensures changed <==> exists i :: 0 <= i < |volumes| && volumes[i].name == CDROM_VOLUME_NAME
  {
    filtered, changed := [], false;
    for i := 0 to |volumes|
      invariant filtered == Keep(volumes[..i], OtherVolume)
      invariant changed <==> exists j :: 0 <= j < i && volumes[j].name == CDROM_VOLUME_NAME
    {
      KeepOne(volumes, i, OtherVolume);
      if volumes[i].name == CDROM_VOLUME_NAME {
        changed := true;
        continue;
      }
      filtered := filtered + [volumes[i]];
    }
    assert volumes[..|volumes|] == volumes;
  }

  method FilterTemplates(dvts: seq<string>, name: string) returns (filtered: seq<string>, changed: bool)
    ensures filtered == Keep(dvts, OtherThan(name))
    ensures changed <==> name in dvts
  {
    filtered, changed := [], false;
    for i := 0 to |dvts|
      invariant filtered == Keep(dvts[..i], OtherThan(name))
      invariant changed <==> name in dvts[..i]
    {
      KeepOne(dvts, i, OtherThan(name));
      assert dvts[..i + 1] == dvts[..i] + [dvts[i]];
      if dvts[i] == name {
        changed := true;
        continue;
      }
      filtered := filtered + [dvts[i]];
    }
    assert dvts[..|dvts|] == dvts;
  }

  method StripVM(vm: VM, vmName: string) returns (stripped: VM, changed: bool)
    ensures stripped == Stripped(vm, vmName) && (changed <==> NamesCdrom(vm, vmName))
  {
    stripped, changed := vm, false;
    if vm.template.Some? {
      var disks, disksChanged := FilterDisks(vm.template.value.disks);
      var volumes, volumesChanged := FilterVolumes(vm.template.value.volumes);
      stripped := stripped.(template := Some(vm.template.value.(disks := disks, volumes := volumes)));
      changed := disksChanged || volumesChanged;
    }
    var dvts, dvtsChanged := FilterTemplates(vm.dvts, ISOResourceName(vmName));
    stripped := stripped.(dvts := dvts);
    changed := changed || dvtsChanged;
  }

  lemma StrippingIsLegal(w: World, r: Ref)
    requires r in w.vms
    ensures MayUpdateVM(w, r, Stripped(w.vms[r], r.key.name))
  {
    var vm := w.vms[r];
    if vm.template.Some? {
      var volumes := vm.template.value.volumes;
      forall v | v in Keep(volumes, OtherVolume) ensures v in volumes {
        KeepMembers(volumes, OtherVolume, v);
      }
    }
  }

  /** Only the VM itself changes, and only by being stripped; on success it no longer names the CDROM. */
  method RemoveCDROMFromVMSpec(api: Api, r: Ref) returns (ok: bool)
    requires api.Valid()
    modifies api
    ensures api.Valid() && old(api.log) <= api.log
    ensures forall i :: |old(api.log)| <= i < |api.log| ==> api.log[i].UpdateVM?
    ensures api.w == old(api.w) || (r in old(api.w.vms) && api.w == old(api.w).(vms := old(api.w.vms)[r := Stripped(old(api.w.vms)[r], r.key.name)]))
    ensures ok ==> CdromDetached(api.w, r.cluster, r.key)
    ensures old(api.faults) == [] ==> api.faults == [] && ok
  {
    hide Api.Valid;
    var got := api.Read();
    if !got {
      return false;
    }
    if r !in api.w.vms {
      return true;
    }
    var vm, changed := StripVM(api.w.vms[r], r.key.name);
    StrippedIffNamed(api.w.vms[r], r.key.name);
    if !changed {
      return true;
    }
    StrippingIsLegal(api.w, r);
    var reply := api.Write(UpdateVM(r, vm));
    ok := reply == Done;
  }

  function ISORefOf(cluster: string, vmKey: Key): Ref {
    Ref(cluster, Key(vmKey.ns, ISOResourceName(vmKey.name)))
  }

  /** What a cleanup, complete or not, may have done. */
  ghost predicate CleanupFrame(w: World, w': World, r: Ref) {
    && w' == w.(machines := w'.machines, vms := w'.vms, dvs := w'.dvs, pvcs := w'.pvcs)
    && (w'.vms == w.vms || (r in w.vms && w'.vms == w.vms[r := Stripped(w.vms[r], r.key.name)]))
    && Pruned(w.dvs, w'.dvs, {ISORefOf(r.cluster, r.key)})
    && (w.shared ==> w'.dvs == w.dvs && w'.pvcs == w.pvcs)
    && (forall p :: p in w.pvcs && p != ISORefOf(r.cluster, r.key) ==> p in w'.pvcs && w'.pvcs[p] == w.pvcs[p])
  }

  /** The PVC is gone or going. */
  predicate NotLive(w: World, r: Ref) { r in w.pvcs ==> w.pvcs[r].terminating }

  /** `r` is the PVC of one of the Machine's disks. */
  predicate IsDiskClaim(k: Key, spec: MachineSpec, r: Ref) {
    r.key.ns == k.ns && r.key.name in PvcNames(k.name, spec.disks)
  }

  /** The PVCs of the Machine's disks are what they were. */
  ghost predicate DiskClaimsKept(w: World, w': World, k: Key, spec: MachineSpec) {
    forall r :: r in w.pvcs && IsDiskClaim(k, spec, r) ==> r in w'.pvcs && w'.pvcs[r] == w.pvcs[r]
  }

  /** Every disk of the Machine has its PVC on the cluster, and none is going away. */
  ghost predicate AllDiskClaimsLive(w: World, k: Key, spec: MachineSpec, cluster: string) {
    forall name :: name in PvcNames(k.name, spec.disks) ==>
      Ref(cluster, Key(k.ns, name)) in w.pvcs && !w.pvcs[Ref(cluster, Key(k.ns, name))].terminating
  }

  lemma OtherClaimsKept(w: World, w': World, k: Key, spec: MachineSpec, cluster: string)
    requires CleanupFrame(w, w', Ref(cluster, k)) && (w'.pvcs == w.pvcs || !HasISODisk(spec.disks))
    ensures DiskClaimsKept(w, w', k, spec)
  {
    ISOClaimIsDiskClaimIff(k.name, spec.disks);
    hide PvcNames, HasISODisk;
  }

  lemma ISODiskLoses(w: World, w': World, k: Key, spec: MachineSpec, cluster: string)
    requires HasISODisk(spec.disks) && AllDiskClaimsLive(w, k, spec, cluster) && NotLive(w', ISORefOf(cluster, k))
    ensures !DiskClaimsKept(w, w', k, spec)
  {
    ISOClaimIsDiskClaimIff(k.name, spec.disks);
    hide PvcNames, HasISODisk;
    assert IsDiskClaim(k, spec, ISORefOf(cluster, k));
  }

  method DeleteISODataVolume(api: Api, r: Ref) returns (ok: bool)
    requires api.Valid() && !api.w.shared && CdromDetached(api.w, r.cluster, r.key)
    modifies api
    ensures api.Valid() && old(api.log) <= api.log
    ensures forall i :: |old(api.log)| <= i < |api.log| ==> api.log[i].DeleteDV?
    ensures api.w == old(api.w).(dvs := api.w.dvs) && Pruned(old(api.w.dvs), api.w.dvs, {ISORefOf(r.cluster, r.key)})
    ensures ok ==> ISORefOf(r.cluster, r.key) !in api.w.dvs
    ensures old(api.faults) == [] ==> api.faults == [] && ok
  {
    hide Api.Valid;
    var iso := ISORefOf(r.cluster, r.key);
    assert Legal(api.w, DeleteDV(iso)) by { assert DetachedISO(api.w, iso); }
    hide Legal;
    var got := api.Read();
    if !got {
      return false;
    }
    if iso !in api.w.dvs {
      return true;
    }
    var reply := api.Write(DeleteDV(iso));
    ok := reply == Done || reply == Missing;
  }

  method DeleteISOClaim(api: Api, r: Ref) returns (ok: bool)
    requires api.Valid() && !api.w.shared && CdromDetached(api.w, r.cluster, r.key)
    modifies api
    ensures api.Valid() && old(api.log) <= api.log
    ensures forall i :: |old(api.log)| <= i < |api.log| ==> api.log[i].DeletePVC?
    ensures api.w == old(api.w).(pvcs := api.w.pvcs)
    ensures forall p :: p in old(api.w.pvcs) && p != ISORefOf(r.cluster, r.key) ==> p in api.w.pvcs && api.w.pvcs[p] == old(api.w.pvcs)[p]
    ensures ok ==> (ISORefOf(r.cluster, r.key) in api.w.pvcs ==> api.w.pvcs[ISORefOf(r.cluster, r.key)].terminating)
    ensures old(api.faults) == [] ==> api.faults == [] && ok
  {
    hide Api.Valid;
    var iso := ISORefOf(r.cluster, r.key);
    assert Legal(api.w, DeletePVC(iso)) by { assert DetachedISO(api.w, iso); }
    hide Legal;
    var got := api.Read();
    if !got {
      return false;
    }
    if iso !in api.w.pvcs {
      return true;
    }
    ok := Storage.SendPVCDelete(api, iso);
  }

  /** Detach first, then free a per-VM ISO; a shared one is left to the collector. */
  method CleanupISOResources(api: Api, r: Ref) returns (ok: bool)
    requires api.Valid()
    modifies api
    ensures api.Valid() && old(api.log) <= api.log
    ensures forall i :: |old(api.log)| <= i < |api.log| ==> api.log[i].UpdateVM? || api.log[i].DeleteDV? || api.log[i].DeletePVC?
    ensures CleanupFrame(old(api.w), api.w, r) && api.w.machines == old(api.w.machines)
    ensures ok ==> CdromDetached(api.w, r.cluster, r.key)
    ensures ok && !api.w.shared ==> ISORefOf(r.cluster, r.key) !in api.w.dvs
    ensures ok && !api.w.shared ==> NotLive(api.w, ISORefOf(r.cluster, r.key))
    ensures old(api.faults) == [] ==> api.faults == [] && ok
  {
    hide Api.Valid;
    ok := RemoveCDROMFromVMSpec(api, r);
    if !ok || api.w.shared {
      return;
    }
    ok := DeleteISODataVolume(api, r);
    if !ok {
      return;
    }
    ok := DeleteISOClaim(api, r);
  }

  lemma DetachedHasNoVolume(w: World, r: Ref)
    requires CdromDetached(w, r.cluster, r.key)
    ensures !HasCDROMVolume(Lookup(w.vms, r))
  {
  }

  method MarkISOCleanedUp(api: Api, k: Key, m: Machine)
    requires api.Valid() && k in api.w.machines && api.w.machines[k] == m
    modifies api
    ensures api.Valid() && old(api.log) <= api.log
    ensures forall i :: |old(api.log)| <= i < |api.log| ==> api.log[i].PutMachine? && api.log[i].k == k
    ensures api.w == old(api.w).(machines := api.w.machines)
    ensures api.w.machines == old(api.w.machines) || api.w.machines == old(api.w.machines)[k := m.(isoCleanedUp := true, rv := m.rv + 1)]
    ensures old(api.faults) == [] ==>
              api.faults == [] && api.w.machines == old(api.w.machines)[k := m.(isoCleanedUp := true, rv := m.rv + 1)]
  {
    hide Api.Valid;
    var _ := api.Write(PutMachine(k, m.(isoCleanedUp := true)));
  }

  /** The Machine asks for the CDROM to go, and the guest runs from disk. */
  predicate EjectedAndConnected(spec: MachineSpec, vmi: Option<VMI>) {
    (spec.cdromEjected || spec.osInstalled) && vmi.Some? && vmi.value.agentConnected
  }

  /** No volume of the VM is the CDROM, and the Machine says so. */
  ghost predicate CdromOff(w: World, k: Key, cluster: string) {
    && k in w.machines && w.machines[k].isoCleanedUp
    && (Ref(cluster, k) in w.vms && w.vms[Ref(cluster, k)].template.Some? ==>
          forall v :: v in w.vms[Ref(cluster, k)].template.value.volumes ==> v.name != "cdrom-iso")
  }

  lemma CleanIsOff(w: World, k: Key, m: Machine, cluster: string, vm: Option<VM>, vmi: Option<VMI>)
    requires EjectedAndConnected(m.spec, vmi) && !ShouldCleanupISO(m, vm, vmi)
    requires k in w.machines && w.machines[k] == m && vm == Lookup(w.vms, Ref(cluster, k))
    ensures CdromOff(w, k, cluster)
  {
  }

  lemma DetachedAndMarkedIsOff(w: World, k: Key, cluster: string)
    requires CdromDetached(w, cluster, k) && k in w.machines && w.machines[k].isoCleanedUp
    ensures CdromOff(w, k, cluster)
  {
  }

  lemma DetachedDependsOnVMs(w: World, w': World, cluster: string, k: Key)
    requires CdromDetached(w, cluster, k) && w'.vms == w.vms
    ensures CdromDetached(w', cluster, k)
  {
  }

  /** One failure-free pass over a marked Machine reaches a state in which nothing is left to clean up. */
  method HandleISOCleanup(api: Api, k: Key, m: Machine, cluster: string, vm: Option<VM>, vmi: Option<VMI>)
    requires api.Valid() && k in api.w.machines && api.w.machines[k] == m
    modifies api
    ensures api.Valid() && old(api.log) <= api.log
    ensures forall i :: |old(api.log)| <= i < |api.log| ==>
              api.log[i].UpdateVM? || api.log[i].DeleteDV? || api.log[i].DeletePVC? || (api.log[i].PutMachine? && api.log[i].k == k)
    ensures CleanupFrame(old(api.w), api.w, Ref(cluster, k))
    ensures api.w.machines == old(api.w.machines) || api.w.machines == old(api.w.machines)[k := m.(isoCleanedUp := true, rv := m.rv + 1)]
    ensures old(api.faults) == [] ==> api.faults == []
    // marked and connected: the CDROM is off and the mark set; otherwise nothing is written
    ensures old(api.faults) == [] && vm == Lookup(old(api.w.vms), Ref(cluster, k)) && EjectedAndConnected(m.spec, vmi) ==>
              CdromOff(api.w, k, cluster)
    ensures !EjectedAndConnected(m.spec, vmi) ==> api.w == old(api.w) && api.log == old(api.log)
    ensures CdromOff(old(api.w), k, cluster) && vm == Lookup(old(api.w.vms), Ref(cluster, k)) ==> api.w == old(api.w) && api.log == old(api.log)
    // the disks' own PVCs survive exactly when no data disk is called "iso"
    ensures !HasISODisk(m.spec.disks) ==> DiskClaimsKept(old(api.w), api.w, k, m.spec)
    ensures old(api.faults) == [] && ShouldCleanupISO(m, vm, vmi) && !api.w.shared && AllDiskClaimsLive(old(api.w), k, m.spec, cluster) ==>
              (DiskClaimsKept(old(api.w), api.w, k, m.spec) <==> !HasISODisk(m.spec.disks))
    ensures old(api.faults) == [] && vm == Lookup(old(api.w.vms), Ref(cluster, k)) ==>
              k in api.w.machines && !ShouldCleanupISO(api.w.machines[k], Lookup(api.w.vms, Ref(cluster, k)), vmi)
  {
    hide Api.Valid, Inv, HasISODisk, DiskClaimsKept, AllDiskClaimsLive, CdromDetached, NotLive, CdromOff, CleanupFrame;
    ghost var w0 := api.w;
    NothingCleaned(w0, Ref(cluster, k));
    if CdromOff(w0, k, cluster) && vm == Lookup(w0.vms, Ref(cluster, k)) { OffIsClean(w0, k, cluster, vmi); }
    if ShouldCleanupISO(m, vm, vmi) {
      CleanUpAndMark(api, k, m, cluster);
      CleaningKeepsMode(w0, api.w, Ref(cluster, k));
      if old(api.faults) == [] {
        OffIsClean(api.w, k, cluster, vmi);
        if !w0.shared { ClaimFate(w0, api.w, k, m.spec, cluster); }
      }
    } else if EjectedAndConnected(m.spec, vmi) && vm == Lookup(w0.vms, Ref(cluster, k)) {
      CleanIsOff(w0, k, m, cluster, vm, vmi);
    }
    if api.w.pvcs == w0.pvcs || !HasISODisk(m.spec.disks) { OtherClaimsKept(w0, api.w, k, m.spec, cluster); }
  }

  lemma NothingCleaned(w: World, r: Ref)
    ensures CleanupFrame(w, w, r)
  {
  }

  lemma CleaningKeepsMode(w: World, w': World, r: Ref)
    requires CleanupFrame(w, w', r)
    ensures w'.shared == w.shared && (w.shared ==> w'.pvcs == w.pvcs)
  {
  }

  lemma OffIsClean(w: World, k: Key, cluster: string, vmi: Option<VMI>)
    requires CdromOff(w, k, cluster)
    ensures !ShouldCleanupISO(w.machines[k], Lookup(w.vms, Ref(cluster, k)), vmi)
  {
  }

  method CleanUpAndMark(api: Api, k: Key, m: Machine, cluster: string)
    requires api.Valid() && k in api.w.machines && api.w.machines[k] == m
    modifies api
    ensures api.Valid() && old(api.log) <= api.log
    ensures forall i :: |old(api.log)| <= i < |api.log| ==>
              api.log[i].UpdateVM? || api.log[i].DeleteDV? || api.log[i].DeletePVC? || (api.log[i].PutMachine? && api.log[i].k == k)
    ensures CleanupFrame(old(api.w), api.w, Ref(cluster, k))
    ensures api.w.machines == old(api.w.machines) || api.w.machines == old(api.w.machines)[k := m.(isoCleanedUp := true, rv := m.rv + 1)]
    ensures old(api.faults) == [] ==> api.faults == [] && CdromOff(api.w, k, cluster)
    ensures old(api.faults) == [] && !api.w.shared ==> NotLive(api.w, ISORefOf(cluster, k))
  {
    hide Api.Valid, Inv, CdromDetached, CdromOff, Pruned, Stripped;
    var ok := CleanupISOResources(api, Ref(cluster, k));
    ghost var w1 := api.w;
    if ok {
      MarkISOCleanedUp(api, k, m);
      DetachedDependsOnVMs(w1, api.w, cluster, k);
      if old(api.faults) == [] { DetachedAndMarkedIsOff(api.w, k, cluster); }
    }
  }

  lemma ClaimFate(w: World, w': World, k: Key, spec: MachineSpec, cluster: string)
    requires NotLive(w', ISORefOf(cluster, k))
    ensures HasISODisk(spec.disks) && AllDiskClaimsLive(w, k, spec, cluster) ==> !DiskClaimsKept(w, w', k, spec)
  {
    hide HasISODisk, AllDiskClaimsLive, DiskClaimsKept;
    if HasISODisk(spec.disks) && AllDiskClaimsLive(w, k, spec, cluster) { ISODiskLoses(w, w', k, spec, cluster); }
  }
}
