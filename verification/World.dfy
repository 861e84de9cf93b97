/**
  The supervisor API server and every remote cluster as one value, and the effect of each write call
  the operator can issue. Creates, updates and deletes are accepted or refused as the API server does;
  deleting an object that some finalizer holds only marks it terminating.
*/
module Worlds {
  import opened Wrappers
  import opened Objects

  datatype World = World(
    machines: map<Key, Machine>,
    ncs: map<Key, NC>,
    vms: map<Ref, VM>,
    vmis: map<Ref, VMI>,
    pvcs: map<Ref, PVC>,
    nads: map<Ref, NAD>,
    dvs: map<Ref, DV>,
    namespaces: set<(string, string)>,
    netns: seq<NetNs>,
    sources: map<SourceId, map<string, string>>,   // data of Secrets and ConfigMaps
    configs: seq<string>,          // names of the KubevirtConfigs
    usable: set<string>,           // those whose kubeconfig secret yields a client
    clients: set<string>,          // clients the operator has cached
    defaultConfig: string,         // DEFAULT_KUBEVIRT_CONFIG, "" when unset
    shared: bool)                  // SHARED_BOOT_ISO

  /** A client for the config can be had: it is cached, or the KubevirtConfig exists and its secret yields one. */
  predicate Reachable(w: World, config: string) {
    config in w.clients || (config in w.configs && config in w.usable)
  }

  datatype Effect =
    | PutMachine(k: Key, m: Machine)
    | CreateNS(cluster: string, ns: string)
    | CreateVM(r: Ref, vm: VM)
    | UpdateVM(r: Ref, vm: VM)
    | DeleteVM(r: Ref)
    | CreatePVC(r: Ref, pvc: PVC)
    | DeletePVC(r: Ref)
    | CreateNAD(r: Ref, nad: NAD)
    | DeleteNAD(r: Ref)
    | CreateDV(r: Ref, dv: DV)
    | DeleteDV(r: Ref)
    | CreateNC(k: Key, nc: NC)
    | UpdateNC(k: Key, nc: NC)
    | DeleteNC(k: Key)

  datatype Verdict = Accepted | NotFound | AlreadyExists | Conflict

  function VerdictOf(w: World, e: Effect): Verdict {
    match e
    case PutMachine(k, m) =>
      if k !in w.machines then NotFound else if w.machines[k].rv != m.rv then Conflict else Accepted
    case CreateNS(c, ns) => if (c, ns) in w.namespaces then AlreadyExists else Accepted
    case CreateVM(r, _) => if r in w.vms then AlreadyExists else Accepted
    case UpdateVM(r, _) => if r in w.vms then Accepted else NotFound
    case DeleteVM(r) => if r in w.vms then Accepted else NotFound
    case CreatePVC(r, _) => if r in w.pvcs then AlreadyExists else Accepted
    case DeletePVC(r) => if r in w.pvcs then Accepted else NotFound
    case CreateNAD(r, _) => if r in w.nads then AlreadyExists else Accepted
    case DeleteNAD(r) => if r in w.nads then Accepted else NotFound
    case CreateDV(r, _) => if r in w.dvs then AlreadyExists else Accepted
    case DeleteDV(r) => if r in w.dvs then Accepted else NotFound
    case CreateNC(k, _) => if k in w.ncs then AlreadyExists else Accepted
    case UpdateNC(k, _) => if k in w.ncs then Accepted else NotFound
    case DeleteNC(k) => if k in w.ncs then Accepted else NotFound
  }

  function WithoutVM(vms: map<Ref, VM>, r: Ref): map<Ref, VM>
    requires r in vms
  {
    if vms[r].held then vms[r := vms[r].(terminating := true)] else vms - {r}
  }

  function WithoutPVC(pvcs: map<Ref, PVC>, r: Ref): map<Ref, PVC>
    requires r in pvcs
  {
    if pvcs[r].held then pvcs[r := pvcs[r].(terminating := true)] else pvcs - {r}
  }

  function Apply(w: World, e: Effect): World
    requires VerdictOf(w, e) == Accepted
  {
    match e
    case PutMachine(k, m) => w.(machines := w.machines[k := m.(rv := m.rv + 1)])
    case CreateNS(c, ns) => w.(namespaces := w.namespaces + {(c, ns)})
    case CreateVM(r, vm) => w.(vms := w.vms[r := vm])
    case UpdateVM(r, vm) => w.(vms := w.vms[r := vm])
    case DeleteVM(r) => w.(vms := WithoutVM(w.vms, r))
    case CreatePVC(r, pvc) => w.(pvcs := w.pvcs[r := pvc])
    case DeletePVC(r) => w.(pvcs := WithoutPVC(w.pvcs, r))
    case CreateNAD(r, nad) => w.(nads := w.nads[r := nad])
    case DeleteNAD(r) => w.(nads := w.nads - {r})
    case CreateDV(r, dv) => w.(dvs := w.dvs[r := dv])
    case DeleteDV(r) => w.(dvs := w.dvs - {r})
    case CreateNC(k, nc) => w.(ncs := w.ncs[k := nc])
    case UpdateNC(k, nc) => w.(ncs := w.ncs[k := nc])
    case DeleteNC(k) =>
      w.(ncs := if w.ncs[k].held then w.ncs[k := w.ncs[k].(terminating := true)] else w.ncs - {k})
  }

  /** A write that makes a new object on a remote cluster. */
  predicate CreatesRemote(e: Effect) {
    e.CreateNS? || e.CreateVM? || e.CreatePVC? || e.CreateNAD? || e.CreateDV?
  }
}
