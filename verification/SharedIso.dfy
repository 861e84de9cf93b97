/**
  internal/machine/vm/shared_iso.go: the shared boot-ISO DataVolumes, created on demand and collected once no
  VM template and no running VMI in the namespace names them.
*/
module SharedISO {
  import opened Wrappers
  import opened Objects
  import opened Worlds
  import opened Fleet
  import opened Apis
  import IsoNames

  function ISORef(cluster: string, k: Key, os: OSSpec): Ref {
    Ref(cluster, Key(k.ns, IsoNames.SharedISOResourceName(os)))
  }

  predicate SupportedSource(spec: MachineSpec) {
    spec.bootSourceType in {"", "http", "https", "registry"}
  }

  datatype ISOState = Ready | Waiting | Failing

  /** What a failure-free call finds or does, from the state before it. */
  function ISOStateOf(w: World, r: Ref, spec: MachineSpec): ISOState {
    if r in w.dvs then (if w.dvs[r].phase == Succeeded then Ready else Waiting)
    else if SupportedSource(spec) then Waiting
    else Failing
  }

  /** `Ready` only for a finished import; an existing volume is never replaced. */
  method EnsureSharedISODataVolume(api: Api, k: Key, spec: MachineSpec, cluster: string) returns (state: ISOState)
    requires api.Valid()
    modifies api
    ensures api.Valid() && old(api.log) <= api.log
    ensures forall i :: |old(api.log)| <= i < |api.log| ==> api.log[i].CreateDV?
    ensures api.w == old(api.w).(dvs := api.w.dvs) && Extends(old(api.w.dvs), api.w.dvs)
    ensures api.w.dvs == old(api.w.dvs) || api.w.dvs == old(api.w.dvs)[ISORef(cluster, k, spec.os) := DV(true, spec.os.imageID, Pending)]
    ensures state == Ready ==> ISOReady(api.w, ISORef(cluster, k, spec.os))
    ensures old(api.faults) == [] ==> api.faults == [] && state == ISOStateOf(old(api.w), ISORef(cluster, k, spec.os), spec)
    ensures old(api.faults) == [] && state == Waiting ==> ISORef(cluster, k, spec.os) in api.w.dvs
  {
    var r := ISORef(cluster, k, spec.os);
    var got := api.Read();
    if got && r in api.w.dvs {
      return if api.w.dvs[r].phase == Succeeded then Ready else Waiting;
    }
    var supported := spec.bootSourceType == "" || spec.bootSourceType == "http" || spec.bootSourceType == "https"
                     || spec.bootSourceType == "registry";
    if !got || !supported {
      return Failing;
    }
    var reply := api.Write(CreateDV(r, DV(true, spec.os.imageID, Pending)));
    state := if reply == Done || reply == Exists then Waiting else Failing;
  }

  // ---- garbage collection ----

  method AddReferencedClaimNames(referenced: set<string>, volumes: seq<Volume>) returns (names: set<string>)
    ensures forall n :: n in names <==> n in referenced || Claims(volumes, n)
  {
    names := referenced;
    for i := 0 to |volumes|
      invariant forall n :: n in names <==> n in referenced || Claims(volumes[..i], n)
    {
      ghost var before := names;
      match volumes[i].source {
        case PVCSource(claim) => names := names + {claim};
        case DataVolumeSource(dv) => names := names + {dv};
        case _ =>
      }
      forall n ensures n in names <==> n in referenced || Claims(volumes[..i + 1], n) {
        ClaimsAppend(volumes, i, n);
      }
    }
    assert volumes[..|volumes|] == volumes;
  }

  lemma ClaimsAppend(volumes: seq<Volume>, i: nat, n: string)
    requires i < |volumes|
    ensures Claims(volumes[..i + 1], n) <==>
              Claims(volumes[..i], n) || volumes[i].source == PVCSource(n) || volumes[i].source == DataVolumeSource(n)
  {
    var s, t := volumes[..i + 1], volumes[..i];
    assert forall j :: 0 <= j < i ==> s[j] == t[j];
    assert s[i] == volumes[i];
  }

  predicate InNamespace(v: Ref, cluster: string, ns: string) {
    v.cluster == cluster && v.key.ns == ns
  }

  ghost predicate Referenced(w: World, cluster: string, ns: string, name: string) {
    exists v :: InNamespace(v, cluster, ns) && NamesClaim(w, v, name)
  }

  /** The listed VMs and VMIs are those of the namespace, so between them they name what is referenced there. */
  lemma ListedNames(w: World, cluster: string, ns: string, vms: seq<Ref>, vmis: seq<Ref>, n: string)
    requires forall v :: v in vms <==> v in w.vms && InNamespace(v, cluster, ns)
    requires forall v :: v in vmis <==> v in w.vmis && InNamespace(v, cluster, ns)
    ensures Referenced(w, cluster, ns, n) <==>
              (exists j :: 0 <= j < |vms| && vms[j] in w.vms && TemplateClaims(w.vms[vms[j]], n))
              || (exists j :: 0 <= j < |vmis| && vmis[j] in w.vmis && Claims(w.vmis[vmis[j]].volumes, n))
  {
    if Referenced(w, cluster, ns, n) {
      var v :| InNamespace(v, cluster, ns) && NamesClaim(w, v, n);
      if v in w.vms && TemplateClaims(w.vms[v], n) {
        var j :| 0 <= j < |vms| && vms[j] == v;
      } else {
        var j :| 0 <= j < |vmis| && vmis[j] == v;
      }
    }
    forall j | 0 <= j < |vms| && vms[j] in w.vms && TemplateClaims(w.vms[vms[j]], n) ensures Referenced(w, cluster, ns, n) {
      assert vms[j] in vms && NamesClaim(w, vms[j], n);
    }
    forall j | 0 <= j < |vmis| && vmis[j] in w.vmis && Claims(w.vmis[vmis[j]].volumes, n) ensures Referenced(w, cluster, ns, n) {
      assert vmis[j] in vmis && NamesClaim(w, vmis[j], n);
    }
  }

  method ReferencedPVCClaimNames(api: Api, cluster: string, ns: string) returns (names: Option<set<string>>)
    modifies api`faults
    ensures names.Some? ==> forall n :: n in names.value <==> Referenced(api.w, cluster, ns, n)
    ensures old(api.faults) == [] ==> api.faults == [] && names.Some?
  {
    var listedVMs := api.Read();
    if !listedVMs {
      return None;
    }
    var listedVMIs := api.Read();
    if !listedVMIs {
      return None;
    }
    var vms := api.Items(set v | v in api.w.vms && InNamespace(v, cluster, ns));
    var vmis := api.Items(set v | v in api.w.vmis && InNamespace(v, cluster, ns));
    var referenced := {};
    for i := 0 to |vms|
      modifies {}
      invariant forall n :: n in referenced <==> exists j :: 0 <= j < i && vms[j] in api.w.vms && TemplateClaims(api.w.vms[vms[j]], n)
    {
      assert vms[i] in vms;
      if api.w.vms[vms[i]].template.Some? {
        referenced := AddReferencedClaimNames(referenced, api.w.vms[vms[i]].template.value.volumes);
      }
    }
    ghost var fromVMs := referenced;
    for i := 0 to |vmis|
      modifies {}
      invariant forall n :: n in referenced <==>
                  n in fromVMs || exists j :: 0 <= j < i && vmis[j] in api.w.vmis && Claims(api.w.vmis[vmis[j]].volumes, n)
    {
      assert vmis[i] in vmis;
      referenced := AddReferencedClaimNames(referenced, api.w.vmis[vmis[i]].volumes);
    }
    forall n ensures n in referenced <==> Referenced(api.w, cluster, ns, n) {
      ListedNames(api.w, cluster, ns, vms, vmis, n);
    }
    names := Some(referenced);
  }

  /** A shared volume of the namespace that nothing names any more. */
  ghost predicate Collectable(w: World, cluster: string, ns: string, r: Ref) {
    r in w.dvs && w.dvs[r].sharedISO && InNamespace(r, cluster, ns) && !Referenced(w, cluster, ns, r.key.name)
  }

  lemma CollectableIsUnused(w: World, cluster: string, ns: string, r: Ref)
    requires Collectable(w, cluster, ns, r)
    ensures ClaimUnused(w, r)
  {
    forall v | SameNamespace(v, r) ensures !NamesClaim(w, v, r.key.name) {
      assert InNamespace(v, cluster, ns);
    }
  }

  lemma CollectableDependsOn(w: World, w': World, cluster: string, ns: string, r: Ref)
    requires w.vms == w'.vms && w.vmis == w'.vmis && Collectable(w, cluster, ns, r) && r in w'.dvs && w'.dvs[r] == w.dvs[r]
    ensures Collectable(w', cluster, ns, r)
  {
    assert forall v, name :: NamesClaim(w, v, name) == NamesClaim(w', v, name);
  }

  /**
    A failure-free collection leaves exactly the shared volumes of the namespace that are still named; every
    collection leaves named, unlabelled and foreign-namespace volumes alone.
  */
  method GCOrphanedSharedISOs(api: Api, cluster: string, ns: string)
    requires api.Valid()
    modifies api
    ensures api.Valid() && old(api.log) <= api.log
    ensures forall i :: |old(api.log)| <= i < |api.log| ==> api.log[i].DeleteDV?
    ensures api.w == old(api.w).(dvs := api.w.dvs)
    ensures forall r :: r in api.w.dvs ==> r in old(api.w.dvs) && api.w.dvs[r] == old(api.w.dvs)[r]
    ensures forall r :: r in old(api.w.dvs) && !Collectable(old(api.w), cluster, ns, r) ==> r in api.w.dvs
    ensures old(api.faults) == [] ==> api.faults == []
    ensures old(api.faults) == [] && api.w.shared ==> forall r :: Collectable(old(api.w), cluster, ns, r) ==> r !in api.w.dvs
  {
    hide Api.Valid;
    if !api.w.shared {
      return;
    }
    var listed := api.Read();
    if !listed {
      return;
    }
    var labelled := set r | r in api.w.dvs && api.w.dvs[r].sharedISO && InNamespace(r, cluster, ns);
    var items := api.Items(labelled);
    assert forall r :: Collectable(old(api.w), cluster, ns, r) ==> r in labelled && r in items;
    if |items| == 0 {
      return;
    }
    var referenced := ReferencedPVCClaimNames(api, cluster, ns);
    if referenced.None? {
      return;
    }
    hide Referenced, Collectable, Inv;
    for i := 0 to |items|
      invariant api.Valid() && old(api.log) <= api.log
      invariant forall j :: |old(api.log)| <= j < |api.log| ==> api.log[j].DeleteDV?
      invariant api.w == old(api.w).(dvs := api.w.dvs)
      invariant forall r :: r in api.w.dvs ==> r in old(api.w.dvs) && api.w.dvs[r] == old(api.w.dvs)[r]
      invariant forall r :: r in old(api.w.dvs) && !Collectable(old(api.w), cluster, ns, r) ==> r in api.w.dvs
      invariant old(api.faults) == [] ==> api.faults == []
      invariant old(api.faults) == [] ==> forall j :: 0 <= j < i && Collectable(old(api.w), cluster, ns, items[j]) ==> items[j] !in api.w.dvs
    {
      assert items[i] in items && items[i] in labelled;
      if items[i].key.name in referenced.value {
        assert !Collectable(old(api.w), cluster, ns, items[i]) by {
          NamedIsKept(old(api.w), cluster, ns, items[i]);
        }
        continue;
      }
      CollectItem(api, cluster, ns, items[i], old(api.w));
    }
  }

  lemma NamedIsKept(w: World, cluster: string, ns: string, r: Ref)
    requires Referenced(w, cluster, ns, r.key.name)
    ensures !Collectable(w, cluster, ns, r)
  {
  }

  method CollectItem(api: Api, cluster: string, ns: string, r: Ref, ghost start: World)
    requires api.Valid() && api.w.shared && api.w == start.(dvs := api.w.dvs)
    requires r in start.dvs && start.dvs[r].sharedISO && InNamespace(r, cluster, ns) && !Referenced(start, cluster, ns, r.key.name)
    requires r in api.w.dvs ==> api.w.dvs[r] == start.dvs[r]
    modifies api
    ensures api.Valid() && old(api.log) <= api.log
    ensures forall i :: |old(api.log)| <= i < |api.log| ==> api.log[i].DeleteDV?
    ensures api.w == old(api.w).(dvs := api.w.dvs) && Pruned(old(api.w.dvs), api.w.dvs, {r})
    ensures Collectable(start, cluster, ns, r)
    ensures old(api.faults) == [] ==> api.faults == [] && r !in api.w.dvs
  {
    hide Api.Valid;
    assert Collectable(start, cluster, ns, r);
    if r in api.w.dvs {
      CollectableDependsOn(start, api.w, cluster, ns, r);
      CollectableIsUnused(api.w, cluster, ns, r);
    }
    var _ := api.Write(DeleteDV(r));
  }
}
