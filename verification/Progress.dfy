/** Passes as parts of runs, and what failure-free passes reach together with an environment that does its share. */
module Progress {
  import opened Wrappers
  import opened Objects
  import opened Worlds
  import opened Fleet
  import opened Apis
  import opened Runs
  import opened CloudInitSources
  import opened VmManager
  import SharedISO
  import NetworkConfig
  import Placement
  import Deletion
  import Controller
  import VmSpec

  // ---- passes are runs ----

  function Ops(log: seq<Effect>): seq<Event> {
    seq(|log|, i requires 0 <= i < |log| => Op(log[i]))
  }

  /** The states a pass goes through, whatever calls fail, form a run: all run theorems hold at each of its calls. */
  lemma PassIsRun(api: Api)
    requires api.Valid()
    ensures IsRun(api.hist, Ops(api.log))
  {
    var evs := Ops(api.log);
    forall i | 0 <= i < |evs| ensures Enabled(api.hist[i], evs[i]) && api.hist[i + 1] == Next(api.hist[i], evs[i]) {
      assert evs[i] == Op(api.log[i]);
    }
  }

  /** Runs continue: passes and environment moves may follow each other in any order. */
  lemma RunsCompose(ws1: seq<World>, evs1: seq<Event>, ws2: seq<World>, evs2: seq<Event>)
    requires IsRun(ws1, evs1) && IsRun(ws2, evs2) && ws1[|evs1|] == ws2[0]
    ensures IsRun(ws1 + ws2[1..], evs1 + evs2)
  {
    var ws, evs := ws1 + ws2[1..], evs1 + evs2;
    hide Inv, Enabled, Next;
    assert ws[0] == ws1[0];
    forall i | 0 <= i < |evs| ensures Enabled(ws[i], evs[i]) && ws[i + 1] == Next(ws[i], evs[i]) {
      if i < |evs1| {
        assert ws[i] == ws1[i] && ws[i + 1] == ws1[i + 1] && evs[i] == evs1[i];
      } else {
        var j := i - |evs1|;
        assert ws[i] == ws2[j] && ws[i + 1] == ws2[j + 1] && evs[i] == evs2[j];
      }
    }
  }

  // ---- creation ----

  /** The import of the shared ISO the Machine waits for completes. */
  method FinishImport(w: World, k: Key) returns (w': World)
    requires Inv(w) && Controller.CreationRank(w, k) == Controller.Importing
    ensures Inv(w') && w' == w.(dvs := w'.dvs)
    ensures Controller.CreationRank(w', k) < Controller.Importing
  {
    var m := w.machines[k];
    var r := SharedISO.ISORef(m.config, k, m.spec.os);
    var ev := ImportMoves(r, Succeeded);
    assert Enabled(w, ev);
    EventKeepsInv(w, ev);
    w' := w.(dvs := w.dvs[r := w.dvs[r].(phase := Succeeded)]);
    assert w' == Next(w, ev);
    ImportEndsWait(w, w', k);
  }

  lemma ImportEndsWait(w: World, w': World, k: Key)
    requires Controller.CreationRank(w, k) == Controller.Importing && w' == w.(dvs := w'.dvs)
    requires var m := w.machines[k]; ISOReady(w', SharedISO.ISORef(m.config, k, m.spec.os))
    ensures Controller.CreationRank(w', k) < Controller.Importing
  {
    hide MacReady, CloudInitOf, SharedISO.ISORef, VmSpec.PvcNames;
  }

  /** Whatever addresses and sources others supply: once cloud-init has what it needs, only the VM is missing. */
  lemma SupplyEndsWait(w: World, w': World, k: Key)
    requires w' == w.(sources := w'.sources, ncs := w'.ncs) && OnlySupplies(w, w', k)
    ensures Controller.CreationRank(w, k) == Controller.Allocating ==>
              (Controller.CreationRank(w', k) == 1 <==> Available(CloudInitOf(w', k, w.machines[k].spec)))
    ensures Controller.CreationRank(w, k) == Controller.Allocating ==> Controller.CreationRank(w', k) <= Controller.Allocating
  {
    if k in w.machines { MacReadyDependsOn(w, w', k, w.machines[k].spec); }
    hide MacReady, CloudInitOf, SharedISO.ISORef, VmSpec.PvcNames;
  }

  /** The missing sources are created and the allocation operator reports an address for every stored MAC. */
  method SupplyCidata(w: World, k: Key) returns (w': World)
    requires Inv(w) && Controller.CreationRank(w, k) == Controller.Allocating && CidataPossible(w, k, w.machines[k].spec)
    ensures Inv(w') && w' == w.(sources := w'.sources, ncs := w'.ncs) && OnlySupplies(w, w', k)
    ensures Controller.CreationRank(w', k) == 1
  {
    var spec := w.machines[k].spec;
    RankMeansMacReady(w, k);
    StoredMacIsCompletable(w, k, spec);
    CompletedIsAvailable(w, k, spec);
    w' := Completed(w, k, spec);
    CompletionIsRun(w, k, spec);
    SupplyEndsWait(w, w', k);
  }

  lemma RankMeansMacReady(w: World, k: Key)
    requires Controller.CreationRank(w, k) == Controller.Allocating
    ensures MacReady(w, k, w.machines[k].spec)
  {
    hide CloudInitOf, MacReady;
  }

  lemma CompletionIsRun(w: World, k: Key, spec: MachineSpec)
    requires Inv(w)
    ensures Inv(Completed(w, k, spec))
  {
    var w' := Completed(w, k, spec);
    var ev := SourcesChange(w'.sources);
    assert Enabled(w, ev);
    EventKeepsInv(w, ev);
    var w1 := w.(sources := w'.sources);
    assert w1 == Next(w, ev);
    if spec.cloudInit.Some? && k in w.ncs {
      var answer := NCMoves(k, w'.ncs[k]);
      assert Enabled(w1, answer);
      EventKeepsInv(w1, answer);
      assert Next(w1, answer) == w';
    } else {
      assert w' == w1;
    }
  }

  /** A pass finds a storage class, resources and a MAC generator that works. */
  predicate Provides(p: Prereqs) {
    (p.storageClass || p.hasDefaultClass) && p.resources && p.generatedMac.Some? && GeneratesMac(p)
  }

  lemma PlacementSurvives(w: World, w': World, configs: seq<string>, k: Key)
    requires Extends(w.vms, w'.vms) && w'.clients == w.clients && w'.usable == w.usable && w'.configs == w.configs
    requires Placement.FirstWithVM(w, configs, k) != ""
    ensures Placement.FirstWithVM(w', configs, k) != ""
  {
    var c := Placement.FirstWithVM(w, configs, k);
    Placement.SomeMeansFirst(w', configs, k, c);
  }

  /** What an interrupted or waiting pass leaves is what the next pass, whatever it is given, can go on from. */
  lemma ProvisioningGoesOn(w: World, w': World, k: Key, p: Prereqs, q: Prereqs)
    requires Controller.Persists(w, w', k) && Controller.PassProvisions(w, k, p) && Provides(q)
    ensures Controller.PassProvisions(w', k, q)
  {
    var m := w.machines[k];
    SameNetNs(w, w', k, m.spec);
    CidataPossibleDependsOn(w, w', k, m.spec);
    PlacementGoesOn(w, w', k);
    hide CidataPossible, Placement.PlacementOf, NetworkManager.NetNsOf;
  }

  lemma PlacementGoesOn(w: World, w': World, k: Key)
    requires Controller.Persists(w, w', k) && Placement.PlacementOf(w, k, w.machines[k].config) != ""
    ensures Placement.PlacementOf(w', k, w'.machines[k].config) != ""
  {
    if Placement.NamedConfig(w, w'.machines[k].config) == "" { PlacementSurvives(w, w', w.configs, k); }
  }

  lemma SupplyKeepsProvisioning(w: World, w': World, k: Key, p: Prereqs)
    requires Controller.PassProvisions(w, k, p) && w' == w.(sources := w'.sources, ncs := w'.ncs) && OnlySupplies(w, w', k)
    ensures Controller.PassProvisions(w', k, p)
  {
    var spec := w.machines[k].spec;
    CanAttachDependsOn(w, w', k, spec, p.generatedMac);
    SameNetNs(w, w', k, spec);
    SamePlacement(w, w', w.configs, k);
    assert CidataPossible(w', k, spec);
    hide CanAttach, Placement.FirstWithVM, CidataPossible;
  }

  lemma ImportKeepsProvisioning(w: World, w': World, k: Key, p: Prereqs)
    requires Controller.PassProvisions(w, k, p) && w' == w.(dvs := w'.dvs)
    ensures Controller.PassProvisions(w', k, p)
  {
    var spec := w.machines[k].spec;
    CanAttachDependsOn(w, w', k, spec, p.generatedMac);
    SameNetNs(w, w', k, spec);
    SamePlacement(w, w', w.configs, k);
    assert CidataPossible(w', k, spec);
    hide CanAttach, Placement.FirstWithVM, CidataPossible;
  }

  lemma SamePlacement(w: World, w': World, configs: seq<string>, k: Key)
    requires w'.vms == w.vms && w'.clients == w.clients && w'.usable == w.usable && w'.configs == w.configs
    ensures Placement.FirstWithVM(w', configs, k) == Placement.FirstWithVM(w, configs, k)
  {
  }

  lemma ProvisioningMachine(w: World, k: Key, p: Prereqs)
    requires Controller.PassProvisions(w, k, p)
    ensures k in w.machines && !Deleting(w, k) && CidataPossible(w, k, w.machines[k].spec)
  {
  }

  lemma CompletedIsDone(w: World, k: Key)
    requires k in w.machines && Anchors(w, k, w.machines[k].config) && Ref(w.machines[k].config, k) in w.vms
    ensures Controller.CreationRank(w, k) == 0
  {
  }

  lemma RankZeroMeans(w: World, k: Key)
    requires Controller.CreationRank(w, k) == 0
    ensures k in w.machines && w.machines[k].finalizer && Ref(w.machines[k].config, k) in w.vms
  {
  }

  /**
    Repeated failure-free passes end with the VM on the recorded cluster. In between, imports complete, missing
    cloud-init sources appear and addresses are allocated for the MACs stored by then; each pass may find another
    generated MAC.
  */
  method ProvisionUntilCreated(w0: World, k: Key, prereqs: nat -> Prereqs) returns (w: World)
    requires Inv(w0) && Controller.PassProvisions(w0, k, prereqs(0)) && forall i :: Provides(prereqs(i))
    ensures Inv(w) && k in w.machines && w.machines[k].finalizer && Ref(w.machines[k].config, k) in w.vms
  {
    hide Inv, Controller.Persists, Controller.PassProvisions, Controller.CreationRank, CidataPossible;
    w := w0;
    var i: nat := 0;
    while Controller.CreationRank(w, k) != 0
      invariant Inv(w)
      invariant Controller.CreationRank(w, k) == 0 || Controller.PassProvisions(w, k, prereqs(i))
      decreases Controller.CreationRank(w, k)
    {
      var w1 := ProvisionOnce(w, k, prereqs(i), prereqs(i + 1));
      w := w1;
      i := i + 1;
    }
    RankZeroMeans(w, k);
  }

  /** One failure-free pass, and what it waits for. */
  method ProvisionOnce(w0: World, k: Key, p: Prereqs, next: Prereqs) returns (w: World)
    requires Inv(w0) && Controller.PassProvisions(w0, k, p) && Provides(p) && Provides(next) && Controller.CreationRank(w0, k) != 0
    ensures Inv(w) && Controller.CreationRank(w, k) < Controller.CreationRank(w0, k)
    ensures Controller.CreationRank(w, k) == 0 || Controller.PassProvisions(w, k, next)
  {
    hide Inv, Controller.Persists, Controller.PassProvisions, Controller.CreationRank, CidataPossible;
    ProvisioningMachine(w0, k, p);
    var api := new Api(w0, []);
    var end := Controller.Reconcile(api, k, p);
    Deletion.InvOf(api);
    w := api.w;
    if end == Controller.Completed { CompletedIsDone(w, k); }
    if Controller.CreationRank(w, k) != 0 {
      ProvisioningGoesOn(w0, w, k, p, next);
      ProvisioningMachine(w, k, next);
      ghost var waiting := w;
      if Controller.CreationRank(w, k) == Controller.Importing {
        w := FinishImport(w, k);
        ImportKeepsProvisioning(waiting, w, k, next);
      } else if Controller.CreationRank(w, k) == Controller.Allocating {
        w := SupplyCidata(w, k);
        SupplyKeepsProvisioning(waiting, w, k, next);
      }
    }
  }

  // ---- deletion ----

  /** The environment finishes a terminating VM. */
  method FinishVM(w: World, r: Ref) returns (w': World)
    requires Inv(w) && r in w.vms && w.vms[r].terminating
    ensures Inv(w') && w' == w.(vms := w.vms - {r})
  {
    var ev := VMVanishes(r);
    assert Enabled(w, ev);
    EventKeepsInv(w, ev);
    w' := w.(vms := w.vms - {r});
    assert w' == Next(w, ev);
  }

  /** A pass that left the found VM terminating: once it is gone, the next pass can still release the Machine. */
  lemma DeletionGoesOn(w: World, w1: World, w2: World, k: Key, cluster: string)
    requires Deletion.CanRelease(w, k) && cluster == Placement.PlacementOf(w, k, w.machines[k].config)
    requires Deletion.DeletionAdvances(w, w1, k, cluster) && Deletion.DeletionRank(w1, k, cluster) == 2
    requires w2 == w1.(vms := w1.vms - {Ref(cluster, k)})
    ensures Deletion.CanRelease(w2, k) && w2.vms.Keys < w.vms.Keys
  {
    hide NetworkConfig.NCMatches, Placement.PlacementOf;
    assert w2.vms.Keys <= w.vms.Keys && Ref(cluster, k) in w.vms.Keys && Ref(cluster, k) !in w2.vms.Keys;
    if Placement.NamedConfig(w, w.machines[k].config) == "" {
      var c :| c in w.configs && Placement.HasVM(w, c, k) && !w.vms[Ref(c, k)].held;
      assert Placement.HasVM(w2, c, k) && !w2.vms[Ref(c, k)].held;
    }
  }

  lemma NothingOwned(w: World, k: Key)
    requires Inv(w) && (k in w.machines ==> !w.machines[k].finalizer)
    ensures NoOwnedVM(w, k)
  {
  }

  lemma RankAfter(w: World, w': World, k: Key, cluster: string)
    requires Deletion.DeletionAdvances(w, w', k, cluster)
    ensures Deletion.DeletionRank(w', k, cluster) == 0
         || Deletion.DeletionRank(w', k, cluster) == 2 <= Deletion.DeletionRank(w, k, cluster)
  {
  }

  lemma StuckMeans(w: World, k: Key)
    requires Deletion.Finalizing(w, k)
    ensures Deletion.Stuck(w, k) <==> !Deletion.CanRelease(w, k)
  {
  }

  /**
    Failure-free passes over a deleting Machine, with terminating VMs going away between them: the finalizer comes
    off exactly when CanRelease holds at the start, and then no operator-created VM of the Machine is left.
  */
  method DeleteUntilReleased(w0: World, k: Key) returns (w: World, released: bool)
    requires Inv(w0) && Deletion.Finalizing(w0, k)
    ensures Inv(w) && (released <==> Deletion.CanRelease(w0, k))
    ensures released ==> (k in w.machines ==> !w.machines[k].finalizer) && NoOwnedVM(w, k)
    ensures !released ==> Deletion.Stuck(w, k)
  {
    hide Inv, Deletion.CanRelease, Deletion.Finalizing, Deletion.Stuck, NoOwnedVM;
    w, released := w0, false;
    StuckMeans(w, k);
    while !released && Deletion.CanRelease(w, k)
      invariant Inv(w)
      invariant released ==> k in w.machines ==> !w.machines[k].finalizer
      invariant Deletion.CanRelease(w0, k) ==> released || Deletion.CanRelease(w, k)
      invariant !Deletion.CanRelease(w0, k) ==> !released && w == w0
      decreases !released, w.vms.Keys
    {
      w, released := DeleteOnce(w, k);
    }
    if released {
      NothingOwned(w, k);
    } else {
      var api := new Api(w, []);
      var _ := Controller.Reconcile(api, k, Prereqs(false, false, false, None));
      Deletion.InvOf(api);
      w := api.w;
    }
  }

  /** One failure-free pass that can release the Machine, and the end of the VM it may leave terminating. */
  method DeleteOnce(w0: World, k: Key) returns (w: World, released: bool)
    requires Inv(w0) && Deletion.CanRelease(w0, k)
    ensures Inv(w)
    ensures released ==> k in w.machines ==> !w.machines[k].finalizer
    ensures !released ==> Deletion.CanRelease(w, k) && w.vms.Keys < w0.vms.Keys
  {
    hide Inv, Deletion.CanRelease, Deletion.DeletionAdvances, Placement.PlacementOf, Deletion.Stuck;
    ReleasingMachine(w0, k);
    var cluster := Placement.PlacementOf(w0, k, w0.machines[k].config);
    var api := new Api(w0, []);
    var _ := Controller.Reconcile(api, k, Prereqs(false, false, false, None));
    Deletion.InvOf(api);
    w := api.w;
    RankAfter(w0, w, k, cluster);
    released := Deletion.DeletionRank(w, k, cluster) != 2;
    if !released {
      ghost var terminating := w;
      w := FinishVM(w, Ref(cluster, k));
      DeletionGoesOn(w0, terminating, w, k, cluster);
    }
  }

  lemma ReleasingMachine(w: World, k: Key)
    requires Deletion.CanRelease(w, k)
    ensures k in w.machines && w.machines[k].deleting && Controller.PassDeletes(w, k)
  {
    Deletion.CanReleaseIsPlaced(w, k);
  }

  /** What a pass over a stuck Machine may fail at, and the VMs that vanish after it. */
  datatype Round = Round(faults: seq<Outcome>, p: Prereqs, vanishing: Option<Ref>)

  /** No number of passes, failing or not, and no VM going away releases a stuck Machine: its finalizer stays. */
  method StuckStaysStuck(w0: World, k: Key, rounds: seq<Round>) returns (w: World)
    requires Inv(w0) && Deletion.Stuck(w0, k) && forall i :: 0 <= i < |rounds| ==> GeneratesMac(rounds[i].p)
    ensures Inv(w) && Deletion.Stuck(w, k) && k in w.machines && w.machines[k].finalizer
  {
    hide Inv, Deletion.CanRelease;
    w := w0;
    for i := 0 to |rounds|
      invariant Inv(w) && Deletion.Stuck(w, k)
    {
      var api := new Api(w, rounds[i].faults);
      var _ := Controller.Reconcile(api, k, rounds[i].p);
      Deletion.InvOf(api);
      w := api.w;
      var gone := rounds[i].vanishing;
      if gone.Some? && gone.value in w.vms && w.vms[gone.value].terminating {
        ghost var before := w;
        w := FinishVM(w, gone.value);
        Deletion.StuckStays(before, w, k);
      }
    }
  }

  /** The common case: deleted before it was ever placed, with several configs, no default and no VM anywhere. */
  lemma NeverPlacedIsStuck(w: World, k: Key)
    requires Deletion.Finalizing(w, k) && w.machines[k].config == "" && w.defaultConfig == "" && |w.configs| != 1
    requires forall c :: c in w.configs ==> Ref(c, k) !in w.vms
    ensures Deletion.Stuck(w, k)
  {
  }

  /** The same for a named config whose KubevirtConfig is gone or yields no client, and none is cached. */
  lemma UnreachableIsStuck(w: World, k: Key)
    requires Deletion.Finalizing(w, k)
    requires var c := Placement.NamedConfig(w, w.machines[k].config); c != "" && !Reachable(w, c)
    ensures Deletion.Stuck(w, k)
  {
  }

  /** A Machine deleted before it was placed, in a fleet with two configs. */
  function NeverPlaced(spec: MachineSpec): World {
    var m := Machine(0, true, true, "", "", false, [], spec);
    World(map[Key("ns", "m") := m], map[], map[], map[], map[], map[], map[], {}, [], map[], ["a", "b"], {"a", "b"}, {}, "", false)
  }

  /** Runs the deletion flow on it: a failure-free pass leaves everything, the finalizer included, as it is. */
  method NeverPlacedKeepsItsFinalizer(spec: MachineSpec) returns (w: World)
    requires AvoidsGeneratedNames(spec.disks)
    ensures w == NeverPlaced(spec) && Inv(w) && w.machines[Key("ns", "m")].deleting && w.machines[Key("ns", "m")].finalizer
  {
    var k := Key("ns", "m");
    var w0 := NeverPlaced(spec);
    NeverPlacedIsUnplaced(spec);
    var api := new Api(w0, []);
    var ok := Deletion.HandleDeletion(api, k, w0.machines[k]);
    w := api.w;
  }

  lemma NeverPlacedIsUnplaced(spec: MachineSpec)
    requires AvoidsGeneratedNames(spec.disks)
    ensures Inv(NeverPlaced(spec)) && Placement.PlacementOf(NeverPlaced(spec), Key("ns", "m"), "") == ""
    ensures Deletion.Stuck(NeverPlaced(spec), Key("ns", "m"))
  {
    var w, k := NeverPlaced(spec), Key("ns", "m");
    NeverPlacedIsStuck(w, k);
  }

  /** The VM the search finds for a Machine without a placement was made by somebody else. */
  lemma UnplacedOwnsNothing(w: World, k: Key, r: Ref)
    requires Inv(w) && k in w.machines && w.machines[k].config == "" && r in w.vms && r.key == k
    ensures !w.vms[r].owned
  {
  }

  /**
    Two configs, none named, a held VM found on one of them: the deletion finds its cluster, yet is stuck from the
    start, because once the VM is gone nothing says where it was.
  */
  lemma UnplacedDeletionLosesItsCluster(w: World, w': World, k: Key, a: string, b: string)
    requires Deletion.Finalizing(w, k) && w.machines[k].config == "" && w.defaultConfig == ""
    requires w.configs == [a, b] && a != "" && b != "" && a != b && Reachable(w, a)
    requires Ref(a, k) in w.vms && w.vms[Ref(a, k)].held && Ref(b, k) !in w.vms
    requires w' == w.(vms := w.vms - {Ref(a, k)})
    ensures Placement.PlacementOf(w, k, "") == a && Deletion.Stuck(w, k)
    ensures Placement.PlacementOf(w', k, "") == "" && Deletion.Stuck(w', k)
  {
    hide NetworkConfig.NCMatches;
    assert w.configs[1..] == [b] && [b][1..] == [];
    assert Placement.FirstWithVM(w', [b], k) == "";
    Deletion.StuckStays(w, w', k);
  }

  /** Once the VM is gone the Machine still resolves to its cluster exactly when a config is named. */
  lemma ClusterSurvivesItsVMIff(w: World, w': World, k: Key, m: Machine)
    requires Inv(w) && Placement.PlacementOf(w, k, m.config) != ""
    requires w' == w.(vms := w.vms - {Ref(Placement.PlacementOf(w, k, m.config), k)})
    ensures Placement.PlacementOf(w', k, m.config) == Placement.PlacementOf(w, k, m.config) <==> Placement.NamedConfig(w, m.config) != ""
  {
    hide Inv;
    assert Placement.FirstWithVM(w', w.configs, k) != Placement.PlacementOf(w, k, m.config);
  }
}
