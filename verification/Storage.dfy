/** internal/machine/storage/storage_manager.go: creating and deleting the PVCs of a Machine. */
module Storage {
  import opened Wrappers
  import opened Objects
  import opened Worlds
  import opened Fleet
  import opened Apis
  import opened VmSpec

  function PvcRef(cluster: string, k: Key, name: string): Ref {
    Ref(cluster, Key(k.ns, name))
  }

  function NewPVC(k: Key): PVC { PVC(Some(k.name), true, false) }

  /** Every PVC added is labelled for the Machine and has one of `names`. */
  ghost predicate OnlyClaimsOf(before: map<Ref, PVC>, after: map<Ref, PVC>, k: Key, cluster: string, names: seq<string>) {
    forall r :: r in after && r !in before ==>
      after[r] == NewPVC(k) && r.cluster == cluster && r.key.ns == k.ns && r.key.name in names
  }

  /** Create the PVC unless one of that name exists. */
  method CreateSinglePVC(api: Api, k: Key, cluster: string, name: string) returns (ok: bool)
    requires api.Valid() && Anchors(api.w, k, cluster) && !Deleting(api.w, k)
    modifies api
    ensures api.Valid() && old(api.log) <= api.log
    ensures forall i :: |old(api.log)| <= i < |api.log| ==> api.log[i].CreatePVC?
    ensures api.w == old(api.w).(pvcs := api.w.pvcs) && Extends(old(api.w.pvcs), api.w.pvcs)
    ensures api.w.pvcs == old(api.w.pvcs) || api.w.pvcs == old(api.w.pvcs)[PvcRef(cluster, k, name) := NewPVC(k)]
    ensures ok ==> PvcRef(cluster, k, name) in api.w.pvcs
    ensures old(api.faults) == [] ==> api.faults == [] && ok
  {
    var r := PvcRef(cluster, k, name);
    var got := api.Read();
    if !got {
      return false;
    }
    if r in api.w.pvcs {
      return true;
    }
    var _ := api.Read();   // StorageProfile; a failure falls back to the configured access mode
    var reply := api.Write(CreatePVC(r, NewPVC(k)));
    ok := reply == Done;
  }

  /** `storageClass`: one is configured, or the cluster has a default. */
  method CreatePVCsFromDiskSpecs(api: Api, k: Key, disks: seq<DiskSpec>, cluster: string, configured: bool, hasDefault: bool)
      returns (names: Option<seq<string>>)
    requires api.Valid() && Anchors(api.w, k, cluster) && !Deleting(api.w, k)
    modifies api
    ensures api.Valid() && old(api.log) <= api.log
    ensures forall i :: |old(api.log)| <= i < |api.log| ==> api.log[i].CreatePVC?
    ensures api.w == old(api.w).(pvcs := api.w.pvcs) && Extends(old(api.w.pvcs), api.w.pvcs)
    ensures names.Some? ==> names.value == PvcNames(k.name, disks)
    ensures OnlyClaimsOf(old(api.w.pvcs), api.w.pvcs, k, cluster, PvcNames(k.name, disks))
    ensures names.Some? ==> forall name :: name in names.value ==> PvcRef(cluster, k, name) in api.w.pvcs
    ensures old(api.faults) == [] ==> api.faults == [] && (names.Some? <==> configured || hasDefault)
  {
    hide Api.Valid;
    if !configured {
      var listed := api.Read();
      if !listed || !hasDefault {
        return None;
      }
    }
    if |disks| == 0 {
      var ok := CreateSinglePVC(api, k, cluster, k.name);
      return if ok then Some([k.name]) else None;
    }
    names := CreateClaims(api, k, disks, cluster);
  }

  /** Only the Machine's own claims were added, and those in `done` exist. */
  ghost predicate Claimed(before: map<Ref, PVC>, after: map<Ref, PVC>, k: Key, cluster: string, names: seq<string>, done: seq<string>) {
    && OnlyClaimsOf(before, after, k, cluster, names) && Extends(before, after)
    && forall name :: name in done ==> PvcRef(cluster, k, name) in after
  }

  lemma ClaimAdded(p0: map<Ref, PVC>, p1: map<Ref, PVC>, p2: map<Ref, PVC>, k: Key, cluster: string, names: seq<string>, done: seq<string>, name: string)
    requires Claimed(p0, p1, k, cluster, names, done) && Extends(p1, p2) && name in names
    requires p2 == p1 || p2 == p1[PvcRef(cluster, k, name) := NewPVC(k)]
    ensures Claimed(p0, p2, k, cluster, names, done)
    ensures PvcRef(cluster, k, name) in p2 ==> Claimed(p0, p2, k, cluster, names, done + [name])
  {
  }

  method ClaimName(vmName: string, disk: DiskSpec, i: nat) returns (name: string)
    ensures name == PvcName(vmName, disk, i)
  {
    name := vmName;
    if !disk.boot {
      if disk.name != "" {
        name := vmName + "-" + disk.name;
      } else {
        name := vmName + "-" + GeneratedPvcSuffix(i);
      }
    }
  }

  /** One PVC per disk, stopping at the first that fails. */
  method CreateClaims(api: Api, k: Key, disks: seq<DiskSpec>, cluster: string) returns (names: Option<seq<string>>)
    requires api.Valid() && Anchors(api.w, k, cluster) && !Deleting(api.w, k) && disks != []
    modifies api
    ensures api.Valid() && old(api.log) <= api.log
    ensures forall i :: |old(api.log)| <= i < |api.log| ==> api.log[i].CreatePVC?
    ensures api.w == old(api.w).(pvcs := api.w.pvcs)
    ensures Claimed(old(api.w.pvcs), api.w.pvcs, k, cluster, PvcNames(k.name, disks), if names.Some? then names.value else [])
    ensures names.Some? ==> names.value == PvcNames(k.name, disks)
    ensures old(api.faults) == [] ==> api.faults == [] && names.Some?
  {
    ghost var p0 := api.w.pvcs;
    ghost var all := PvcNames(k.name, disks);
    assert Claimed(p0, p0, k, cluster, all, []);
    hide Api.Valid, Inv, Extends, Claimed, OnlyClaimsOf, NewPVC, PvcRef, PvcName;
    var done: seq<string> := [];
    for i := 0 to |disks|
      invariant api.Valid() && old(api.log) <= api.log
      invariant forall j :: |old(api.log)| <= j < |api.log| ==> api.log[j].CreatePVC?
      invariant api.w == old(api.w).(pvcs := api.w.pvcs)
      invariant Claimed(p0, api.w.pvcs, k, cluster, all, done) && done == all[..i]
      invariant old(api.faults) == [] ==> api.faults == []
    {
      var name := ClaimName(k.name, disks[i], i);
      assert name == all[i] && all[..i + 1] == all[..i] + [name];
      ghost var p1 := api.w.pvcs;
      var ok := CreateSinglePVC(api, k, cluster, name);
      ClaimAdded(p0, p1, api.w.pvcs, k, cluster, all, done, name);
      if !ok {
        StillClaimed(p0, api.w.pvcs, k, cluster, all, done);
        return None;
      }
      done := done + [name];
    }
    names := Some(done);
  }

  lemma StillClaimed(p0: map<Ref, PVC>, p: map<Ref, PVC>, k: Key, cluster: string, names: seq<string>, done: seq<string>)
    requires Claimed(p0, p, k, cluster, names, done)
    ensures Claimed(p0, p, k, cluster, names, [])
  {
  }

  predicate LabelledFor(w: World, k: Key, cluster: string, r: Ref) {
    r in w.pvcs && r.cluster == cluster && r.key.ns == k.ns && w.pvcs[r].sourceMachine == Some(k.name)
  }

  /** Some of `targets` were removed or marked terminating; nothing else changed. */
  ghost predicate Winnowed(before: map<Ref, PVC>, after: map<Ref, PVC>, targets: set<Ref>) {
    && (forall r :: r in after ==> r in before && after[r] in {before[r], before[r].(terminating := true)})
    && (forall r :: r in before && r !in targets ==> r in after && after[r] == before[r])
  }

  predicate Going(pvcs: map<Ref, PVC>, r: Ref) {
    r in pvcs ==> pvcs[r].terminating
  }

  /** A Delete call; a PVC that is not there counts as deleted. */
  method SendPVCDelete(api: Api, r: Ref) returns (ok: bool)
    requires api.Valid() && (r in api.w.pvcs ==> Legal(api.w, DeletePVC(r)))
    modifies api
    ensures api.Valid() && old(api.log) <= api.log
    ensures forall i :: |old(api.log)| <= i < |api.log| ==> api.log[i] == DeletePVC(r)
    ensures api.w == old(api.w) || (r in old(api.w.pvcs) && api.w == old(api.w).(pvcs := WithoutPVC(old(api.w.pvcs), r)))
    ensures ok && r in old(api.w.pvcs) ==> api.w == old(api.w).(pvcs := WithoutPVC(old(api.w.pvcs), r))
    ensures old(api.faults) == [] ==> api.faults == [] && ok
  {
    hide Api.Valid, Legal, WithoutPVC;
    var reply := api.Write(DeletePVC(r));
    ok := reply == Done || reply == Missing;
  }

  method DeletePVCItem(api: Api, r: Ref, k: Key) returns (ok: bool)
    requires api.Valid() && Deleting(api.w, k)
    requires r in api.w.pvcs ==> r.key.ns == k.ns && api.w.pvcs[r].sourceMachine == Some(k.name)
    modifies api
    ensures api.Valid() && old(api.log) <= api.log
    ensures forall i :: |old(api.log)| <= i < |api.log| ==> api.log[i].DeletePVC?
    ensures api.w == old(api.w).(pvcs := api.w.pvcs) && Winnowed(old(api.w.pvcs), api.w.pvcs, {r})
    ensures ok ==> Going(api.w.pvcs, r)
    ensures old(api.faults) == [] ==> api.faults == [] && ok
  {
    hide Api.Valid;
    assert r in api.w.pvcs ==> Legal(api.w, DeletePVC(r));
    hide Legal;
    ok := SendPVCDelete(api, r);
  }

  /** Delete every PVC labelled for the Machine; on success all of them are gone or going. */
  method DeleteAssociatedPVCs(api: Api, k: Key, cluster: string) returns (ok: bool)
    requires api.Valid() && Deleting(api.w, k)
    modifies api
    ensures api.Valid() && old(api.log) <= api.log
    ensures forall i :: |old(api.log)| <= i < |api.log| ==> api.log[i].DeletePVC?
    ensures api.w == old(api.w).(pvcs := api.w.pvcs)
    ensures Winnowed(old(api.w.pvcs), api.w.pvcs, set r | r in old(api.w).pvcs && LabelledFor(old(api.w), k, cluster, r))
    ensures ok ==> forall r :: LabelledFor(api.w, k, cluster, r) ==> api.w.pvcs[r].terminating
    ensures old(api.faults) == [] ==> api.faults == [] && ok
  {
    hide Api.Valid;
    var listed := api.Read();
    if !listed {
      return false;
    }
    var labelled := set r | r in api.w.pvcs && LabelledFor(api.w, k, cluster, r);
    var items := api.Items(labelled);
    for i := 0 to |items|
      invariant api.Valid() && old(api.log) <= api.log
      invariant forall j :: |old(api.log)| <= j < |api.log| ==> api.log[j].DeletePVC?
      invariant api.w == old(api.w).(pvcs := api.w.pvcs)
      invariant Winnowed(old(api.w.pvcs), api.w.pvcs, labelled)
      invariant forall j :: 0 <= j < i ==> Going(api.w.pvcs, items[j])
      invariant old(api.faults) == [] ==> api.faults == []
    {
      ghost var before := api.w.pvcs;
      assert items[i] in items;
      ok := DeletePVCItem(api, items[i], k);
      if !ok {
        return;
      }
      assert forall j :: 0 <= j < i && Going(before, items[j]) ==> Going(api.w.pvcs, items[j]);
    }
    forall r | LabelledFor(api.w, k, cluster, r) ensures api.w.pvcs[r].terminating {
      assert r in labelled && r in items;
    }
    ok := true;
  }
}
