/**
  The fleet protocol: which writes the operator may issue in which state, what the environment may do
  in between, and the safety invariant every run keeps. The guards are state predicates; the modules of
  the reconciler show that the code only ever issues writes the guards allow, at every call of a pass.
*/
module Fleet {
  import opened Wrappers
  import opened Objects
  import opened Worlds
  import opened CloudInitSources

  // ---- the invariant ----

  /** Machine `k` still exists, holds the operator's finalizer and is placed on cluster `c`. */
  predicate Anchors(w: World, k: Key, c: string) {
    c != "" && k in w.machines && w.machines[k].finalizer && w.machines[k].config == c
  }

  ghost predicate NoVMLeaks(w: World) {
    forall r :: r in w.vms && w.vms[r].owned ==> Anchors(w, r.key, r.cluster)
  }

  predicate LabelledLive(w: World, r: Ref) {
    r in w.pvcs && w.pvcs[r].sourceMachine.Some? && !w.pvcs[r].terminating
  }

  ghost predicate NoPVCLeaks(w: World) {
    forall r :: LabelledLive(w, r) ==> Anchors(w, Key(r.key.ns, w.pvcs[r].sourceMachine.value), r.cluster)
  }

  /** An operator-created VM that is not going away and whose Machine is not being deleted. */
  predicate LiveVM(w: World, r: Ref) {
    && r in w.vms && w.vms[r].owned && !w.vms[r].terminating
    && r.key in w.machines && !w.machines[r.key].deleting
  }

  ghost predicate NADsPresent(w: World) {
    forall r, nad :: LiveVM(w, r) && UsesNAD(w.vms[r], nad) ==> Ref(r.cluster, Key(r.key.ns, nad)) in w.nads
  }

  predicate ISOReady(w: World, r: Ref) {
    r in w.dvs && w.dvs[r].phase == Succeeded
  }

  ghost predicate SharedISOsReady(w: World) {
    && (forall r, claim :: r in w.vms && w.vms[r].owned && w.vms[r].template.Some?
          && CdromClaims(w.vms[r].template.value.volumes, claim)
          ==> ISOReady(w, Ref(r.cluster, Key(r.key.ns, claim))))
    && (forall r, claim :: r in w.vmis && w.vmis[r].owned && CdromClaims(w.vmis[r].volumes, claim)
          ==> ISOReady(w, Ref(r.cluster, Key(r.key.ns, claim))))
  }

  ghost predicate InterfacesCarry(vm: VM, ifaces: seq<Iface>) {
    vm.template.Some? ==>
      forall i :: 0 <= i < |vm.template.value.interfaces| ==>
        var x := vm.template.value.interfaces[i];
        MacFor(ifaces, x.name) == x.mac
  }

  ghost predicate MacsAgree(w: World) {
    forall r :: r in w.vms && w.vms[r].owned && r.key in w.ncs ==> InterfacesCarry(w.vms[r], w.ncs[r.key].ifaces)
  }

  ghost predicate WellFormed(w: World) {
    && "" !in w.configs
    && (forall k :: k in w.machines ==> AvoidsGeneratedNames(w.machines[k].spec.disks))
  }

  ghost predicate Inv(w: World) {
    && WellFormed(w)
    && NoVMLeaks(w)
    && NoPVCLeaks(w)
    && NADsPresent(w)
    && (w.shared ==> SharedISOsReady(w))
    && MacsAgree(w)
  }

  // ---- what the operator may write ----

  /** Nothing of Machine `k` is left that only the finalizer keeps track of. */
  ghost predicate Released(w: World, k: Key) {
    && (forall r :: r in w.vms && r.key == k ==> !w.vms[r].owned)
    && (forall r :: LabelledLive(w, r) ==> Key(r.key.ns, w.pvcs[r].sourceMachine.value) != k)
    && (k in w.ncs ==> w.ncs[k].terminating)
  }

  ghost predicate MayPutMachine(w: World, k: Key, m: Machine) {
    && k in w.machines
    && var old_ := w.machines[k];
    && m.deleting == old_.deleting && m.spec == old_.spec
    && (m.config == old_.config || (old_.config == "" && !old_.deleting && old_.finalizer))
    && (m.finalizer == old_.finalizer
        || (m.finalizer && !old_.deleting)
        || (!m.finalizer && old_.deleting && Released(w, k)))
  }

  /** Every PVC the VM mounts exists, the shared boot ISO's apart, whose DataVolume brings its own. */
  ghost predicate MountsExist(w: World, r: Ref, vm: VM) {
    vm.template.Some? ==>
      forall i :: 0 <= i < |vm.template.value.volumes| ==>
        var v := vm.template.value.volumes[i];
        v.source.PVCSource? && !(w.shared && v.name == CDROM_VOLUME_NAME) ==> Ref(r.cluster, Key(r.key.ns, v.source.claim)) in w.pvcs
  }

  /** The VM brings a DataVolumeTemplate for exactly the DataVolumes it mounts. */
  ghost predicate BringsItsDataVolumes(vm: VM) {
    vm.template.Some? ==>
      forall d :: d in vm.dvts <==> exists i :: 0 <= i < |vm.template.value.volumes| && vm.template.value.volumes[i].source == DataVolumeSource(d)
  }

  ghost predicate MayCreateVM(w: World, r: Ref, vm: VM) {
    && Anchors(w, r.key, r.cluster) && !w.machines[r.key].deleting
    && vm.owned && vm.template.Some?
    && (forall nad :: UsesNAD(vm, nad) ==> Ref(r.cluster, Key(r.key.ns, nad)) in w.nads)
    && (w.shared ==> forall claim :: CdromClaims(vm.template.value.volumes, claim)
                       ==> ISOReady(w, Ref(r.cluster, Key(r.key.ns, claim))))
    && r.key in w.ncs && InterfacesCarry(vm, w.ncs[r.key].ifaces)
    && (forall i :: 0 <= i < |vm.template.value.interfaces| ==> vm.template.value.interfaces[i].mac != "")
    && NetworkDataAgrees(w, r.key, vm)
    && (r.cluster, r.key.ns) in w.namespaces && MountsExist(w, r, vm) && BringsItsDataVolumes(vm)
  }

  /** Updates of a VM only stop it or strip disks, volumes and templates from it. */
  ghost predicate MayUpdateVM(w: World, r: Ref, vm: VM) {
    && r in w.vms
    && var old_ := w.vms[r];
    && vm.owned == old_.owned && vm.terminating == old_.terminating
    && (vm.template.Some? <==> old_.template.Some?)
    && (vm.template.Some? ==>
          && vm.template.value.networks == old_.template.value.networks
          && vm.template.value.interfaces == old_.template.value.interfaces
          && (forall v :: v in vm.template.value.volumes ==> v in old_.template.value.volumes))
  }

  predicate Deleting(w: World, k: Key) {
    k in w.machines && w.machines[k].deleting
  }

  /** `r` is the boot ISO of one VM, and that VM no longer names it. */
  ghost predicate DetachedISO(w: World, r: Ref) {
    exists vmName :: r.key.name == ISOResourceName(vmName) && CdromDetached(w, r.cluster, Key(r.key.ns, vmName))
  }

  predicate CdromDetached(w: World, cluster: string, vmKey: Key) {
    Ref(cluster, vmKey) in w.vms ==> !NamesCdrom(w.vms[Ref(cluster, vmKey)], vmKey.name)
  }

  ghost predicate MayDeletePVC(w: World, r: Ref) {
    || (r in w.pvcs && w.pvcs[r].sourceMachine.Some? && Deleting(w, Key(r.key.ns, w.pvcs[r].sourceMachine.value)))
    || (!w.shared && DetachedISO(w, r))
  }

  predicate SameNamespace(a: Ref, b: Ref) {
    a.cluster == b.cluster && a.key.ns == b.key.ns
  }

  ghost predicate NADUnused(w: World, r: Ref) {
    forall v :: v in w.vms && SameNamespace(v, r) && UsesNAD(w.vms[v], r.key.name) ==>
      w.vms[v].terminating || Deleting(w, v.key)
  }

  predicate NamesClaim(w: World, v: Ref, name: string) {
    (v in w.vms && TemplateClaims(w.vms[v], name)) || (v in w.vmis && Claims(w.vmis[v].volumes, name))
  }

  ghost predicate ClaimUnused(w: World, r: Ref) {
    forall v :: SameNamespace(v, r) ==> !NamesClaim(w, v, r.key.name)
  }

  ghost predicate MayDeleteDV(w: World, r: Ref) {
    if w.shared then r in w.dvs && w.dvs[r].sharedISO && ClaimUnused(w, r) else DetachedISO(w, r)
  }

  ghost predicate NoOwnedVM(w: World, k: Key) {
    forall r :: r in w.vms && r.key == k ==> !w.vms[r].owned
  }

  /** Every MAC already resolvable stays what it is. */
  ghost predicate KeepsMacs(before: seq<Iface>, after: seq<Iface>) {
    forall name :: MacFor(before, name) != "" ==> MacFor(after, name) == MacFor(before, name)
  }

  ghost predicate Legal(w: World, e: Effect) {
    match e
    case PutMachine(k, m) => MayPutMachine(w, k, m)
    case CreateNS(c, ns) => true
    case CreateVM(r, vm) => MayCreateVM(w, r, vm)
    case UpdateVM(r, vm) => MayUpdateVM(w, r, vm)
    case DeleteVM(r) => Deleting(w, r.key)
    case CreatePVC(r, pvc) =>
      pvc.sourceMachine.Some? && !pvc.terminating
      && Anchors(w, Key(r.key.ns, pvc.sourceMachine.value), r.cluster)
      && !Deleting(w, Key(r.key.ns, pvc.sourceMachine.value))
    case DeletePVC(r) => MayDeletePVC(w, r)
    case CreateNAD(r, nad) => nad.managed
    case DeleteNAD(r) => NADUnused(w, r)
    case CreateDV(r, dv) => dv.sharedISO && dv.phase == Pending
    case DeleteDV(r) => MayDeleteDV(w, r)
    case CreateNC(k, nc) => NoOwnedVM(w, k) && k in w.machines && !w.machines[k].deleting
    case UpdateNC(k, nc) => k in w.ncs && KeepsMacs(w.ncs[k].ifaces, nc.ifaces) && nc.status == w.ncs[k].status
                            && (nc.ifaces == w.ncs[k].ifaces || NoOwnedVM(w, k))
    case DeleteNC(k) => Deleting(w, k) && NoOwnedVM(w, k)
  }

  // ---- progress that a creating pass persists ----

  ghost predicate Extends<K, V>(before: map<K, V>, after: map<K, V>) {
    forall x :: x in before ==> x in after && after[x] == before[x]
  }

  /** Only `targets` may have disappeared. */
  ghost predicate Pruned<V>(before: map<Ref, V>, after: map<Ref, V>, targets: set<Ref>) {
    && (forall r :: r in after ==> r in before && after[r] == before[r])
    && (forall r :: r in before && r !in targets ==> r in after)
  }

  /** MACs are kept, and an interface without one is at most given one. */
  ghost predicate OnlyFills(before: seq<Iface>, after: seq<Iface>) {
    && KeepsMacs(before, after)
    && (AllMacs(before) ==> AllMacs(after))
    && (forall name :: Fillable(before, name) ==> Fillable(after, name))
  }

  ghost predicate NCsKept(before: map<Key, NC>, after: map<Key, NC>) {
    && (forall k :: k in before ==> k in after && OnlyFills(before[k].ifaces, after[k].ifaces))
    && (forall k :: k in after && k !in before ==> AllMacs(after[k].ifaces))
  }

  /** Nothing persisted is lost: objects are only added, and what the environment owns is untouched. */
  ghost predicate Grows(w: World, w': World) {
    && w'.machines == w.machines && w'.vmis == w.vmis && w'.netns == w.netns
    && w'.configs == w.configs && w'.defaultConfig == w.defaultConfig && w'.shared == w.shared
    && w'.usable == w.usable && w'.clients == w.clients && w'.sources == w.sources
    && w.namespaces <= w'.namespaces
    && Extends(w.vms, w'.vms) && Extends(w.pvcs, w'.pvcs) && Extends(w.nads, w'.nads) && Extends(w.dvs, w'.dvs)
    && NCsKept(w.ncs, w'.ncs)
  }

  lemma GrowsTransitive(w1: World, w2: World, w3: World)
    requires Grows(w1, w2) && Grows(w2, w3)
    ensures Grows(w1, w3)
  {
    forall k | k in w1.ncs ensures k in w3.ncs && OnlyFills(w1.ncs[k].ifaces, w3.ncs[k].ifaces) {
      assert OnlyFills(w1.ncs[k].ifaces, w2.ncs[k].ifaces) && OnlyFills(w2.ncs[k].ifaces, w3.ncs[k].ifaces);
    }
    forall k | k in w3.ncs && k !in w1.ncs ensures AllMacs(w3.ncs[k].ifaces) {
      if k in w2.ncs { assert AllMacs(w2.ncs[k].ifaces) && OnlyFills(w2.ncs[k].ifaces, w3.ncs[k].ifaces); }
    }
  }

  /** A step that only adds to the remote stores. */
  lemma GrowsByAdding(w: World, w': World)
    requires w' == w.(namespaces := w'.namespaces, vms := w'.vms, pvcs := w'.pvcs, nads := w'.nads, dvs := w'.dvs)
    requires w.namespaces <= w'.namespaces
    requires Extends(w.vms, w'.vms) && Extends(w.pvcs, w'.pvcs) && Extends(w.nads, w'.nads) && Extends(w.dvs, w'.dvs)
    ensures Grows(w, w')
  {
  }

  lemma GrowsByNC(w: World, w': World)
    requires w' == w.(ncs := w'.ncs) && NCsKept(w.ncs, w'.ncs)
    ensures Grows(w, w')
  {
  }

  // ---- what the environment may do between passes ----

  datatype Event =
    | Op(e: Effect)
    | UserCreates(k: Key, m: Machine)
    | UserEdits(k: Key, m: Machine)              // spec, labels, request annotations, status, unset placement
    | UserDeletes(k: Key)
    | Reap(k: Key)                               // the API server drops a deleted Machine without finalizers
    | NCMoves(k: Key, nc: NC)                    // the allocation result, other owners' finalizers
    | NCVanishes(k: Key)
    | ForeignVM(r: Ref, vm: VM)
    | VMHeld(r: Ref, held: bool)
    | VMDeleted(r: Ref)                          // by somebody else
    | VMVanishes(r: Ref)
    | VMIStarts(r: Ref)                          // a start or restart copies the VM template
    | VMIStops(r: Ref)
    | AgentReports(r: Ref, connected: bool)
    | ForeignPVC(r: Ref, pvc: PVC)
    | PVCHeld(r: Ref, held: bool)
    | PVCDeleted(r: Ref)                         // by somebody else
    | PVCVanishes(r: Ref)
    | ForeignNAD(r: Ref, nad: NAD)
    | ForeignDV(r: Ref, dv: DV)
    | ImportMoves(r: Ref, phase: Phase)
    | NetworksChange(netns: seq<NetNs>)
    | SourcesChange(sources: map<SourceId, map<string, string>>)
    | ConfigsChange(configs: seq<string>, usable: set<string>, defaultConfig: string)
    | CacheMoves(clients: set<string>)           // clients built, invalidated, or lost in a restart

  ghost predicate Enabled(w: World, ev: Event) {
    match ev
    case Op(e) => VerdictOf(w, e) == Accepted && Legal(w, e)
    case UserCreates(k, m) => k !in w.machines && !m.deleting && !m.finalizer && AvoidsGeneratedNames(m.spec.disks)
    case UserEdits(k, m) =>
      && k in w.machines && AvoidsGeneratedNames(m.spec.disks)
      && var old_ := w.machines[k];
      && m.deleting == old_.deleting && m.finalizer == old_.finalizer && m.rv > old_.rv
      && (m.config == old_.config || old_.config == "")
    case UserDeletes(k) => k in w.machines
    case Reap(k) => k in w.machines && w.machines[k].deleting && !w.machines[k].finalizer
    case NCMoves(k, nc) => k in w.ncs && nc.ifaces == w.ncs[k].ifaces && nc.terminating == w.ncs[k].terminating
    case NCVanishes(k) => k in w.ncs && (w.ncs[k].terminating || k !in w.machines)
    case ForeignVM(r, vm) => r !in w.vms && !vm.owned
    case VMHeld(r, held) => r in w.vms && !w.vms[r].terminating
    case VMDeleted(r) => r in w.vms
    case VMVanishes(r) => r in w.vms && w.vms[r].terminating
    case VMIStarts(r) => r in w.vms && r !in w.vmis && w.vms[r].template.Some?
    case VMIStops(r) => r in w.vmis
    case AgentReports(r, connected) => r in w.vmis
    case ForeignPVC(r, pvc) => r !in w.pvcs && pvc.sourceMachine.None?
    case PVCHeld(r, held) => r in w.pvcs && !w.pvcs[r].terminating
    case PVCDeleted(r) => r in w.pvcs
    case PVCVanishes(r) => r in w.pvcs && w.pvcs[r].terminating
    case ForeignNAD(r, nad) => r !in w.nads
    case ForeignDV(r, dv) => r !in w.dvs && !dv.sharedISO
    case ImportMoves(r, phase) => r in w.dvs && w.dvs[r].phase != Succeeded
    case NetworksChange(netns) => true
    case SourcesChange(sources) => true
    case ConfigsChange(configs, usable, defaultConfig) => "" !in configs
    case CacheMoves(clients) => "" !in clients && forall c :: c in clients ==> Reachable(w, c)
  }

  ghost function Next(w: World, ev: Event): World
    requires Enabled(w, ev)
  {
    match ev
    case Op(e) => Apply(w, e)
    case UserCreates(k, m) => w.(machines := w.machines[k := m])
    case UserEdits(k, m) => w.(machines := w.machines[k := m])
    case UserDeletes(k) => w.(machines := w.machines[k := w.machines[k].(deleting := true, rv := w.machines[k].rv + 1)])
    case Reap(k) => w.(machines := w.machines - {k})
    case NCMoves(k, nc) => w.(ncs := w.ncs[k := nc])
    case NCVanishes(k) => w.(ncs := w.ncs - {k})
    case ForeignVM(r, vm) => w.(vms := w.vms[r := vm])
    case VMHeld(r, held) => w.(vms := w.vms[r := w.vms[r].(held := held)])
    case VMDeleted(r) => w.(vms := WithoutVM(w.vms, r))
    case VMVanishes(r) => w.(vms := w.vms - {r})
    case VMIStarts(r) => w.(vmis := w.vmis[r := VMI(w.vms[r].owned, w.vms[r].template.value.volumes, false)])
    case VMIStops(r) => w.(vmis := w.vmis - {r})
    case AgentReports(r, connected) => w.(vmis := w.vmis[r := w.vmis[r].(agentConnected := connected)])
    case ForeignPVC(r, pvc) => w.(pvcs := w.pvcs[r := pvc])
    case PVCHeld(r, held) => w.(pvcs := w.pvcs[r := w.pvcs[r].(held := held)])
    case PVCDeleted(r) => w.(pvcs := WithoutPVC(w.pvcs, r))
    case PVCVanishes(r) => w.(pvcs := w.pvcs - {r})
    case ForeignNAD(r, nad) => w.(nads := w.nads[r := nad])
    case ForeignDV(r, dv) => w.(dvs := w.dvs[r := dv])
    case ImportMoves(r, phase) => w.(dvs := w.dvs[r := w.dvs[r].(phase := phase)])
    case NetworksChange(netns) => w.(netns := netns)
    case SourcesChange(sources) => w.(sources := sources)
    case ConfigsChange(configs, usable, defaultConfig) => w.(configs := configs, usable := usable, defaultConfig := defaultConfig)
    case CacheMoves(clients) => w.(clients := clients)
  }

  // ---- one step keeps the invariant ----

  lemma PutKeepsAnchors(w: World, k: Key, m: Machine, key: Key, c: string)
    requires k in w.machines && w.machines[k].rv == m.rv && MayPutMachine(w, k, m)
    requires Anchors(w, key, c) && (key == k ==> !Released(w, k))
    ensures Anchors(Apply(w, PutMachine(k, m)), key, c)
  {
  }

  lemma LegalKeepsVMs(w: World, e: Effect)
    requires NoVMLeaks(w) && VerdictOf(w, e) == Accepted && Legal(w, e)
    ensures NoVMLeaks(Apply(w, e))
  {
  }

  lemma LegalKeepsPVCs(w: World, e: Effect)
    requires NoPVCLeaks(w) && VerdictOf(w, e) == Accepted && Legal(w, e)
    ensures NoPVCLeaks(Apply(w, e))
  {
    var w' := Apply(w, e);
    forall r | LabelledLive(w', r)
      ensures Anchors(w', Key(r.key.ns, w'.pvcs[r].sourceMachine.value), r.cluster)
    {
      if !(e.CreatePVC? && e.r == r) {
        assert LabelledLive(w, r);
        if e.PutMachine? {
          PutKeepsAnchors(w, e.k, e.m, Key(r.key.ns, w.pvcs[r].sourceMachine.value), r.cluster);
        }
      }
    }
  }

  lemma LegalKeepsNADs(w: World, e: Effect)
    requires NADsPresent(w) && VerdictOf(w, e) == Accepted && Legal(w, e)
    ensures NADsPresent(Apply(w, e))
  {
    var w' := Apply(w, e);
    forall r, nad | LiveVM(w', r) && UsesNAD(w'.vms[r], nad)
      ensures Ref(r.cluster, Key(r.key.ns, nad)) in w'.nads
    {
      if !(e.CreateVM? && e.r == r) {
        assert LiveVM(w, r) && UsesNAD(w.vms[r], nad);
      }
    }
  }

  lemma CdromClaimIsClaim(volumes: seq<Volume>, claim: string)
    requires CdromClaims(volumes, claim)
    ensures Claims(volumes, claim)
  {
    var i :| 0 <= i < |volumes| && volumes[i] == Volume(CDROM_VOLUME_NAME, PVCSource(claim));
  }

  lemma LegalKeepsISOs(w: World, e: Effect)
    requires SharedISOsReady(w) && VerdictOf(w, e) == Accepted && Legal(w, e) && w.shared
    ensures SharedISOsReady(Apply(w, e))
  {
    var w' := Apply(w, e);
    forall r, claim | r in w'.vms && w'.vms[r].owned && w'.vms[r].template.Some?
        && CdromClaims(w'.vms[r].template.value.volumes, claim)
      ensures ISOReady(w', Ref(r.cluster, Key(r.key.ns, claim)))
    {
      if !(e.CreateVM? && e.r == r) {
        assert r in w.vms && CdromClaims(w.vms[r].template.value.volumes, claim);
        CdromClaimIsClaim(w.vms[r].template.value.volumes, claim);
        assert NamesClaim(w, r, claim);
      }
    }
    forall r, claim | r in w'.vmis && w'.vmis[r].owned && CdromClaims(w'.vmis[r].volumes, claim)
      ensures ISOReady(w', Ref(r.cluster, Key(r.key.ns, claim)))
    {
      CdromClaimIsClaim(w.vmis[r].volumes, claim);
      assert NamesClaim(w, r, claim);
    }
  }

  lemma LegalKeepsMacs(w: World, e: Effect)
    requires MacsAgree(w) && VerdictOf(w, e) == Accepted && Legal(w, e)
    ensures MacsAgree(Apply(w, e))
  {
  }

  /** Every permitted write keeps the whole invariant. */
  lemma LegalKeepsInv(w: World, e: Effect)
    requires Inv(w) && VerdictOf(w, e) == Accepted && Legal(w, e)
    ensures Inv(Apply(w, e))
  {
    LegalKeepsVMs(w, e);
    LegalKeepsPVCs(w, e);
    LegalKeepsNADs(w, e);
    if w.shared { LegalKeepsISOs(w, e); }
    LegalKeepsMacs(w, e);
  }

  lemma EnvironmentKeepsLeaks(w: World, ev: Event)
    requires NoVMLeaks(w) && NoPVCLeaks(w) && Enabled(w, ev) && !ev.Op?
    ensures NoVMLeaks(Next(w, ev)) && NoPVCLeaks(Next(w, ev))
  {
    var w' := Next(w, ev);
    forall r | LabelledLive(w', r)
      ensures Anchors(w', Key(r.key.ns, w'.pvcs[r].sourceMachine.value), r.cluster)
    {
      assert LabelledLive(w, r);
    }
  }

  lemma EnvironmentKeepsNADs(w: World, ev: Event)
    requires NoVMLeaks(w) && NADsPresent(w) && Enabled(w, ev) && !ev.Op?
    ensures NADsPresent(Next(w, ev))
  {
    var w' := Next(w, ev);
    forall r, nad | LiveVM(w', r) && UsesNAD(w'.vms[r], nad)
      ensures Ref(r.cluster, Key(r.key.ns, nad)) in w'.nads
    {
      assert LiveVM(w, r) && UsesNAD(w.vms[r], nad);
    }
  }

  lemma EnvironmentKeepsISOs(w: World, ev: Event)
    requires SharedISOsReady(w) && Enabled(w, ev) && !ev.Op?
    ensures SharedISOsReady(Next(w, ev))
  {
    var w' := Next(w, ev);
    forall r, claim | r in w'.vms && w'.vms[r].owned && w'.vms[r].template.Some?
        && CdromClaims(w'.vms[r].template.value.volumes, claim)
      ensures ISOReady(w', Ref(r.cluster, Key(r.key.ns, claim)))
    {
      assert r in w.vms && CdromClaims(w.vms[r].template.value.volumes, claim);
    }
  }

  lemma OtherEventsLeaveNCs(w: World, ev: Event)
    requires Enabled(w, ev) && !ev.Op? && !ev.NCMoves? && !ev.NCVanishes?
    ensures Next(w, ev).ncs == w.ncs
  {
    hide WithoutVM, WithoutPVC, Reachable, AvoidsGeneratedNames;
  }

  lemma NCEventsKeepIfaces(w: World, ev: Event, k: Key)
    requires Enabled(w, ev) && (ev.NCMoves? || ev.NCVanishes?) && k in w.ncs && k in Next(w, ev).ncs
    ensures Next(w, ev).ncs[k].ifaces == w.ncs[k].ifaces
  {
  }

  lemma EnvironmentKeepsIfaces(w: World, ev: Event, k: Key)
    requires Enabled(w, ev) && !ev.Op? && k in w.ncs && k in Next(w, ev).ncs
    ensures Next(w, ev).ncs[k].ifaces == w.ncs[k].ifaces
  {
    hide Enabled, Next;
    if ev.NCMoves? || ev.NCVanishes? { NCEventsKeepIfaces(w, ev, k); } else { OtherEventsLeaveNCs(w, ev); }
  }

  lemma EnvironmentKeepsTemplates(w: World, ev: Event)
    requires Enabled(w, ev) && !ev.Op?
    ensures forall r :: r in Next(w, ev).vms && Next(w, ev).vms[r].owned ==>
              r in w.vms && w.vms[r].owned && Next(w, ev).vms[r].template == w.vms[r].template
    ensures forall k :: k in Next(w, ev).ncs ==> k in w.ncs
  {
  }

  lemma EnvironmentKeepsMacs(w: World, ev: Event)
    requires MacsAgree(w) && Enabled(w, ev) && !ev.Op?
    ensures MacsAgree(Next(w, ev))
  {
    var w' := Next(w, ev);
    EnvironmentKeepsTemplates(w, ev);
    forall k | k in w'.ncs ensures w'.ncs[k].ifaces == w.ncs[k].ifaces {
      EnvironmentKeepsIfaces(w, ev, k);
    }
    hide MacFor;
  }

  lemma EnvironmentKeepsForm(w: World, ev: Event)
    requires WellFormed(w) && Enabled(w, ev) && !ev.Op?
    ensures WellFormed(Next(w, ev)) && Next(w, ev).shared == w.shared
  {
    hide AvoidsGeneratedNames, WithoutVM, WithoutPVC, Reachable;
    if !ev.UserCreates? && !ev.UserEdits? && !ev.UserDeletes? && !ev.Reap? && !ev.ConfigsChange? {
      assert Next(w, ev).machines == w.machines && Next(w, ev).configs == w.configs;
    }
  }

  /** Every move of the environment keeps the invariant too. */
  lemma EventKeepsInv(w: World, ev: Event)
    requires Inv(w) && Enabled(w, ev)
    ensures Inv(Next(w, ev))
  {
    if ev.Op? {
      LegalKeepsInv(w, ev.e);
    } else {
      EnvironmentKeepsLeaks(w, ev);
      EnvironmentKeepsNADs(w, ev);
      if w.shared { EnvironmentKeepsISOs(w, ev); }
      EnvironmentKeepsMacs(w, ev);
      EnvironmentKeepsForm(w, ev);
      hide Next, Enabled, NoVMLeaks, NoPVCLeaks, NADsPresent, SharedISOsReady, MacsAgree, WellFormed;
    }
  }
}
