/** What the invariant gives for whole runs of operator writes and environment moves. */
module Runs {
  import opened Wrappers
  import opened Objects
  import opened Worlds
  import opened Fleet
  import opened CloudInitSources
  import CloudInit

  /** Alternating states and events from a state in which the invariant holds. */
  ghost predicate IsRun(ws: seq<World>, evs: seq<Event>) {
    && |ws| == |evs| + 1 && Inv(ws[0])
    && (forall i :: 0 <= i < |evs| ==> Enabled(ws[i], evs[i]) && ws[i + 1] == Next(ws[i], evs[i]))
  }

  /** Safety: every reachable state keeps the invariant, wherever a pass dies. */
  lemma {:induction false} RunKeepsInv(ws: seq<World>, evs: seq<Event>, n: nat)
    requires IsRun(ws, evs) && n < |ws|
    ensures Inv(ws[n])
  {
    if n > 0 {
      RunKeepsInv(ws, evs, n - 1);
      EventKeepsInv(ws[n - 1], evs[n - 1]);
    }
  }

  /** The empty fleet is a start state. */
  lemma EmptyFleet(shared: bool)
    ensures Inv(World(map[], map[], map[], map[], map[], map[], map[], {}, [], map[], [], {}, {}, "", shared))
  {
  }

  /**
    No leaks: in every reachable state an operator-created VM, or a live PVC labelled for Machine (ns, name),
    on cluster c implies that the Machine exists, holds the finalizer and is placed on c.
  */
  lemma NoLeaks(ws: seq<World>, evs: seq<Event>, n: nat, r: Ref)
    requires IsRun(ws, evs) && n < |ws|
    ensures r in ws[n].vms && ws[n].vms[r].owned ==>
              r.key in ws[n].machines && ws[n].machines[r.key].finalizer && ws[n].machines[r.key].config == r.cluster
    ensures r in ws[n].pvcs && ws[n].pvcs[r].sourceMachine.Some? && !ws[n].pvcs[r].terminating ==>
              var k := Key(r.key.ns, ws[n].pvcs[r].sourceMachine.value);
              k in ws[n].machines && ws[n].machines[k].finalizer && ws[n].machines[k].config == r.cluster
  {
    RunKeepsInv(ws, evs, n);
    if LabelledLive(ws[n], r) {
      assert Anchors(ws[n], Key(r.key.ns, ws[n].pvcs[r].sourceMachine.value), r.cluster);
    }
  }

  /** The operator still guards Machine `k`. */
  predicate Holds(w: World, k: Key) { k in w.machines && w.machines[k].finalizer }

  lemma WriteDropsFinalizer(w: World, e: Effect, k: Key)
    requires VerdictOf(w, e) == Accepted && Legal(w, e) && Holds(w, k)
    ensures Holds(Apply(w, e), k) || (w.machines[k].deleting && Released(w, k))
  {
    hide Released, WithoutVM, WithoutPVC;
    if !e.PutMachine? { assert Apply(w, e).machines == w.machines; }
  }

  lemma EnvironmentKeepsFinalizer(w: World, ev: Event, k: Key)
    requires Enabled(w, ev) && !ev.Op? && Holds(w, k)
    ensures Holds(Next(w, ev), k)
  {
    hide WithoutVM, WithoutPVC;
    if !ev.UserCreates? && !ev.UserEdits? && !ev.UserDeletes? && !ev.Reap? {
      assert Next(w, ev).machines == w.machines;
    }
  }

  /** The finalizer comes off only when nothing on any cluster depends on it any more. */
  lemma FinalizerGuards(ws: seq<World>, evs: seq<Event>, n: nat, k: Key)
    requires IsRun(ws, evs) && n < |evs|
    ensures Holds(ws[n], k) && !Holds(ws[n + 1], k) ==>
              && ws[n].machines[k].deleting
              && (forall r :: r in ws[n].vms && r.key == k ==> !ws[n].vms[r].owned)
              && (forall r :: r in ws[n].pvcs && r.key.ns == k.ns && ws[n].pvcs[r].sourceMachine == Some(k.name) ==> ws[n].pvcs[r].terminating)
              && (k in ws[n].ncs ==> ws[n].ncs[k].terminating)
  {
    var w := ws[n];
    if Holds(w, k) && !Holds(ws[n + 1], k) {
      assert Enabled(w, evs[n]) && ws[n + 1] == Next(w, evs[n]);
      if evs[n].Op? { WriteDropsFinalizer(w, evs[n].e, k); } else { EnvironmentKeepsFinalizer(w, evs[n], k); }
      hide Enabled, Next;
      forall r | r in w.pvcs && r.key.ns == k.ns && w.pvcs[r].sourceMachine == Some(k.name) ensures w.pvcs[r].terminating {
        assert !LabelledLive(w, r);
      }
    }
  }

  lemma PutKeepsPlacement(w: World, key: Key, m: Machine, k: Key)
    requires k in w.machines && w.machines[k].config != ""
    requires VerdictOf(w, PutMachine(key, m)) == Accepted && MayPutMachine(w, key, m)
    ensures Apply(w, PutMachine(key, m)).machines[k].config == w.machines[k].config
  {
  }

  lemma WritePlacement(w: World, e: Effect, k: Key)
    requires VerdictOf(w, e) == Accepted && Legal(w, e) && k in w.machines && w.machines[k].config != ""
    ensures k in Apply(w, e).machines && Apply(w, e).machines[k].config == w.machines[k].config
  {
    if e.PutMachine? {
      PutKeepsPlacement(w, e.k, e.m, k);
    } else {
      assert Apply(w, e).machines == w.machines;
    }
  }

  lemma EnvironmentPlacement(w: World, ev: Event, k: Key)
    requires Enabled(w, ev) && !ev.Op? && k in w.machines && w.machines[k].config != "" && k in Next(w, ev).machines
    ensures Next(w, ev).machines[k].config == w.machines[k].config
  {
    if !ev.UserCreates? && !ev.UserEdits? && !ev.UserDeletes? && !ev.Reap? {
      assert Next(w, ev).machines == w.machines;
    }
  }

  lemma PlacementStep(ws: seq<World>, evs: seq<Event>, n: nat, k: Key)
    requires IsRun(ws, evs) && n < |evs|
    requires k in ws[n].machines && k in ws[n + 1].machines && ws[n].machines[k].config != ""
    ensures ws[n + 1].machines[k].config == ws[n].machines[k].config
  {
    var w, ev := ws[n], evs[n];
    assert Enabled(w, ev) && ws[n + 1] == Next(w, ev);
    if ev.Op? { WritePlacement(w, ev.e, k); } else { EnvironmentPlacement(w, ev, k); }
  }

  /** Machine `k` exists in every state from `i` to `j`: one incarnation of it. */
  ghost predicate Persists(ws: seq<World>, i: nat, j: nat, k: Key) {
    forall t :: i <= t <= j && t < |ws| ==> k in ws[t].machines
  }

  /** Placement of one incarnation of a Machine never changes once it is set. */
  lemma {:induction false} PlacementSticks(ws: seq<World>, evs: seq<Event>, i: nat, j: nat, k: Key)
    requires IsRun(ws, evs) && i <= j < |ws| && Persists(ws, i, j, k)
    requires k in ws[i].machines && ws[i].machines[k].config != ""
    ensures k in ws[j].machines && ws[j].machines[k].config == ws[i].machines[k].config
    decreases j - i
  {
    if i < j {
      PlacementStep(ws, evs, i, k);
      PlacementSticks(ws, evs, i + 1, j, k);
    }
  }

  /** All VMs the operator ever creates for one Machine are on one cluster, whatever happens to the configs. */
  lemma StickyPlacement(ws: seq<World>, evs: seq<Event>, i: nat, j: nat, first: Ref, second: Ref, vm1: VM, vm2: VM)
    requires IsRun(ws, evs) && i <= j < |evs| && Persists(ws, i, j, first.key)
    requires evs[i] == Op(CreateVM(first, vm1)) && evs[j] == Op(CreateVM(second, vm2)) && first.key == second.key
    ensures first.cluster == second.cluster
  {
    assert Enabled(ws[i], evs[i]) && Enabled(ws[j], evs[j]);
    PlacementSticks(ws, evs, i, j, first.key);
  }

  /** At no time do two clusters hold operator-created VMs of one Machine. */
  lemma OneClusterAtATime(ws: seq<World>, evs: seq<Event>, n: nat, r1: Ref, r2: Ref)
    requires IsRun(ws, evs) && n < |ws|
    requires r1 in ws[n].vms && ws[n].vms[r1].owned && r2 in ws[n].vms && ws[n].vms[r2].owned && r1.key == r2.key
    ensures r1 == r2
  {
    RunKeepsInv(ws, evs, n);
  }

  /** NAD safety: a live VM always finds its Multus networks, whichever of the cleanup routines ran before. */
  lemma NetworksStay(ws: seq<World>, evs: seq<Event>, n: nat, r: Ref, nad: string)
    requires IsRun(ws, evs) && n < |ws|
    requires r in ws[n].vms && ws[n].vms[r].owned && !ws[n].vms[r].terminating
    requires r.key in ws[n].machines && !ws[n].machines[r.key].deleting
    requires UsesNAD(ws[n].vms[r], nad)
    ensures Ref(r.cluster, Key(r.key.ns, nad)) in ws[n].nads
  {
    RunKeepsInv(ws, evs, n);
    assert LiveVM(ws[n], r);
  }

  /** Shared-ISO safety: what a VM template or a running VMI mounts as its shared CDROM is an imported volume. */
  lemma MountedISOsStay(ws: seq<World>, evs: seq<Event>, n: nat, r: Ref, claim: string)
    requires IsRun(ws, evs) && n < |ws| && ws[n].shared
    requires
      || (r in ws[n].vms && ws[n].vms[r].owned && ws[n].vms[r].template.Some?
          && CdromClaims(ws[n].vms[r].template.value.volumes, claim))
      || (r in ws[n].vmis && ws[n].vmis[r].owned && CdromClaims(ws[n].vmis[r].volumes, claim))
    ensures var dv := Ref(r.cluster, Key(r.key.ns, claim)); dv in ws[n].dvs && ws[n].dvs[dv].phase == Succeeded
  {
    RunKeepsInv(ws, evs, n);
    assert ISOReady(ws[n], Ref(r.cluster, Key(r.key.ns, claim)));
  }

  /** A per-VM boot ISO is deleted only in a state where its VM no longer names the CDROM. */
  lemma ISODeletedOnlyDetached(ws: seq<World>, evs: seq<Event>, n: nat, r: Ref, vmName: string)
    requires IsRun(ws, evs) && n < |evs| && r.key.name == ISOResourceName(vmName)
    ensures !ws[n].shared && evs[n] == Op(DeleteDV(r)) ==> CdromDetached(ws[n], r.cluster, Key(r.key.ns, vmName))
    ensures evs[n] == Op(DeletePVC(r)) ==>
              || (!ws[n].shared && CdromDetached(ws[n], r.cluster, Key(r.key.ns, vmName)))
              || (r in ws[n].pvcs && OfDeletingMachine(ws[n], r))
  {
    assert Enabled(ws[n], evs[n]);
    if DetachedISO(ws[n], r) {
      var other :| r.key.name == ISOResourceName(other) && CdromDetached(ws[n], r.cluster, Key(r.key.ns, other));
      assert other == ISOResourceName(other)[..|r.key.name| - 4];
      assert vmName == ISOResourceName(vmName)[..|r.key.name| - 4];
    }
  }

  /** The PVC is labelled for a Machine that is being deleted. */
  predicate OfDeletingMachine(w: World, r: Ref)
    requires r in w.pvcs
  {
    w.pvcs[r].sourceMachine.Some? && Deleting(w, Key(r.key.ns, w.pvcs[r].sourceMachine.value))
  }

  /** The operator deletes a PVC of no deleting Machine only as a per-VM boot ISO, by its name. */
  lemma LivePVCsStay(ws: seq<World>, evs: seq<Event>, n: nat, r: Ref)
    requires IsRun(ws, evs) && n < |evs| && evs[n] == Op(DeletePVC(r))
    ensures r in ws[n].pvcs
    ensures OfDeletingMachine(ws[n], r)
         || (!ws[n].shared && exists vmName :: r.key.name == ISOResourceName(vmName) && CdromDetached(ws[n], r.cluster, Key(r.key.ns, vmName)))
  {
    assert Enabled(ws[n], evs[n]);
  }

  /** The VM holds the text of these stanzas as its network-config. */
  ghost predicate HoldsNetworkConfig(vm: VM, ss: seq<CloudInit.Stanza>) {
    vm.template.Some? &&
    exists user :: Volume(CLOUD_INIT_DISK_NAME, CloudInitNoCloud(user, CloudInit.Printed(ss))) in vm.template.value.volumes
  }

  predicate SynthesizesFor(w: World, k: Key) { k in w.machines && Synthesizes(w, k, w.machines[k].spec) }

  /**
    Cross-check of network-config and VM: whenever a VM is created for a Machine whose network-config is synthesized,
    the VM holds the rendered text, and for each of its interfaces the first stanza of that name carries that
    interface's MAC in lower case. Reading the text back gives those stanzas unless some string printed unquoted
    holds a newline.
  */
  lemma SynthesizedConfigNamesTheVMsMac(ws: seq<World>, evs: seq<Event>, n: nat, r: Ref, vm: VM)
    requires IsRun(ws, evs) && n < |evs|
    ensures evs[n] == Op(CreateVM(r, vm)) && SynthesizesFor(ws[n], r.key) ==>
              var ss := SynthesizedStanzas(ws[n], r.key, ws[n].machines[r.key].spec);
              && ss.Some? && HoldsNetworkConfig(vm, ss.value)
              && (forall i :: 0 <= i < |vm.template.value.interfaces| ==> StanzaCarries(ss.value, vm.template.value.interfaces[i]))
              && (CloudInit.Parse(CloudInit.Printed(ss.value)) == ss <==> forall j :: 0 <= j < |ss.value| ==> CloudInit.OneLiners(ss.value[j]))
  {
    if evs[n] == Op(CreateVM(r, vm)) && SynthesizesFor(ws[n], r.key) {
      assert Enabled(ws[n], evs[n]);
      assert NetworkDataAgrees(ws[n], r.key, vm);
      CloudInit.RoundTrip(SynthesizedStanzas(ws[n], r.key, ws[n].machines[r.key].spec).value);
    }
  }

  /** A VM is created only in an existing namespace, with every PVC it mounts there and every DataVolume it mounts its own. */
  lemma NewVMsFindWhatTheyMount(ws: seq<World>, evs: seq<Event>, n: nat, r: Ref, vm: VM)
    requires IsRun(ws, evs) && n < |evs|
    ensures evs[n] == Op(CreateVM(r, vm)) ==>
              && vm.template.Some? && (r.cluster, r.key.ns) in ws[n].namespaces
              && forall v :: v in vm.template.value.volumes ==>
                   && (v.source.PVCSource? && !(ws[n].shared && v.name == "cdrom-iso") ==> Ref(r.cluster, Key(r.key.ns, v.source.claim)) in ws[n].pvcs)
                   && (v.source.DataVolumeSource? ==> v.source.dv in vm.dvts)
  {
    assert Enabled(ws[n], evs[n]);
    if evs[n] == Op(CreateVM(r, vm)) {
      var volumes := vm.template.value.volumes;
      assert MountsExist(ws[n], r, vm) && BringsItsDataVolumes(vm);
      forall v | v in volumes ensures v.source.DataVolumeSource? ==> v.source.dv in vm.dvts {
        var i :| 0 <= i < |volumes| && volumes[i] == v;
        if v.source.DataVolumeSource? { assert volumes[i].source == DataVolumeSource(v.source.dv); }
      }
    }
  }

  /** MAC agreement: every interface of an operator-created VM carries the MAC its NetworkConfiguration resolves to. */
  lemma VMsCarryStoredMacs(ws: seq<World>, evs: seq<Event>, n: nat, r: Ref, i: nat)
    requires IsRun(ws, evs) && n < |ws|
    requires r in ws[n].vms && ws[n].vms[r].owned && r.key in ws[n].ncs
    requires ws[n].vms[r].template.Some? && i < |ws[n].vms[r].template.value.interfaces|
    ensures var x := ws[n].vms[r].template.value.interfaces[i]; MacFor(ws[n].ncs[r.key].ifaces, x.name) == x.mac
  {
    RunKeepsInv(ws, evs, n);
    assert InterfacesCarry(ws[n].vms[r], ws[n].ncs[r.key].ifaces);
  }

  lemma WriteKeepsMac(w: World, e: Effect, k: Key, name: string)
    requires VerdictOf(w, e) == Accepted && Legal(w, e) && k in w.ncs && k in Apply(w, e).ncs && MacFor(w.ncs[k].ifaces, name) != ""
    ensures MacFor(Apply(w, e).ncs[k].ifaces, name) == MacFor(w.ncs[k].ifaces, name)
  {
    hide MacFor;
    if !e.UpdateNC? && !e.DeleteNC? && !e.CreateNC? {
      assert Apply(w, e).ncs == w.ncs;
    }
  }

  /** A NetworkConfiguration that stays keeps every MAC it ever resolved an interface to. */
  lemma {:induction false} StoredMacsStay(ws: seq<World>, evs: seq<Event>, i: nat, j: nat, k: Key, name: string)
    requires IsRun(ws, evs) && i <= j < |ws| && forall t :: i <= t <= j ==> k in ws[t].ncs
    requires MacFor(ws[i].ncs[k].ifaces, name) != ""
    ensures MacFor(ws[j].ncs[k].ifaces, name) == MacFor(ws[i].ncs[k].ifaces, name)
    decreases j - i
  {
    if i < j {
      assert Enabled(ws[i], evs[i]) && ws[i + 1] == Next(ws[i], evs[i]);
      if evs[i].Op? { WriteKeepsMac(ws[i], evs[i].e, k, name); } else { EnvironmentKeepsIfaces(ws[i], evs[i], k); }
      hide Enabled, Next, Apply, MacFor;
      StoredMacsStay(ws, evs, i + 1, j, k, name);
    }
  }
}
