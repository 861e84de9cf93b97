/**
  Which cluster a Machine belongs to: GetOrCreateClientFromMachine and findVMInClusters of
  pkg/clients/kubevirt_client_manager.go. Building a client and getting a VM are calls that may fail.
*/
module Placement {
  import opened Wrappers
  import opened Objects
  import opened Worlds
  import opened Apis

  /** A cluster the operator can talk to has a VM of that name. */
  predicate HasVM(w: World, c: string, k: Key) {
    c != "" && Reachable(w, c) && Ref(c, k) in w.vms
  }

  /** The first config, in list order, whose cluster has the VM; "" when none has. */
  function FirstWithVM(w: World, configs: seq<string>, k: Key): (c: string)
    ensures c != "" ==> c in configs && HasVM(w, c, k)
  {
    if configs == [] then ""
    else if HasVM(w, configs[0], k) then configs[0]
    else FirstWithVM(w, configs[1..], k)
  }

  lemma {:induction false} SomeMeansFirst(w: World, configs: seq<string>, k: Key, c: string)
    requires c in configs && HasVM(w, c, k)
    ensures FirstWithVM(w, configs, k) != ""
  {
    if !HasVM(w, configs[0], k) { SomeMeansFirst(w, configs[1..], k, c); }
  }

  /** The config a Machine names, by annotation, default, or being the only one there is; "" when none. */
  function NamedConfig(w: World, config: string): string {
    if config != "" then config
    else if w.defaultConfig != "" then w.defaultConfig
    else if |w.configs| == 1 then w.configs[0]
    else ""
  }

  /** Where a failure-free pass places the Machine, "" when it cannot be decided or reached. */
  function PlacementOf(w: World, k: Key, config: string): (c: string)
    ensures c != "" ==> Reachable(w, c)
  {
    var named := NamedConfig(w, config);
    if named == "" then FirstWithVM(w, w.configs, k)
    else if Reachable(w, named) then named
    else ""
  }

  /** A cached client, or one built from the KubevirtConfig and its secret. */
  method GetClientForConfig(api: Api, config: string) returns (ok: bool)
    modifies api`faults
    ensures ok ==> Reachable(api.w, config)
    ensures old(api.faults) == [] ==> api.faults == [] && (ok <==> Reachable(api.w, config))
  {
    if config in api.w.clients {
      return true;
    }
    var got := api.Read();
    if !got || config !in api.w.configs {
      return false;
    }
    got := api.Read();
    ok := got && config in api.w.usable;
  }

  method FindVMInClusters(api: Api, k: Key) returns (found: string)
    requires "" !in api.w.configs
    modifies api`faults
    ensures found != "" ==> found in api.w.configs && HasVM(api.w, found, k)
    ensures old(api.faults) == [] ==> api.faults == [] && found == FirstWithVM(api.w, api.w.configs, k)
  {
    var configs := api.w.configs;
    for i := 0 to |configs|
      invariant old(api.faults) == [] ==> api.faults == []
      invariant old(api.faults) == [] ==> FirstWithVM(api.w, configs, k) == FirstWithVM(api.w, configs[i..], k)
    {
      assert configs[i] in configs;
      assert configs[i..][1..] == configs[i + 1..];
      var connected := GetClientForConfig(api, configs[i]);
      if !connected {
        continue;   // skip a cluster that cannot be reached
      }
      var got := api.Read();
      if got && Ref(configs[i], k) in api.w.vms {
        return configs[i];
      }
    }
    found := "";
  }

  /** `ok` with the cluster to use, and whether the choice still has to be recorded on the Machine. */
  method GetOrCreateClientFromMachine(api: Api, k: Key, m: Machine) returns (ok: bool, cluster: string, needsAnnotation: bool)
    requires "" !in api.w.configs
    modifies api`faults
    ensures ok ==> cluster != "" && Reachable(api.w, cluster) && PlacementOf(api.w, k, m.config) != ""
    ensures ok && m.config != "" ==> cluster == m.config && !needsAnnotation
    ensures ok && m.config == "" ==> needsAnnotation
    ensures ok && NamedConfig(api.w, m.config) != "" ==> cluster == NamedConfig(api.w, m.config)
    ensures ok && NamedConfig(api.w, m.config) == "" ==> cluster in api.w.configs && HasVM(api.w, cluster, k)
    ensures old(api.faults) == [] ==> api.faults == [] && (ok <==> PlacementOf(api.w, k, m.config) != "")
    ensures old(api.faults) == [] && ok ==> cluster == PlacementOf(api.w, k, m.config)
  {
    cluster, needsAnnotation := m.config, false;
    if cluster == "" {
      cluster := api.w.defaultConfig;
      if cluster == "" {
        var listed := api.Read();
        if !listed || |api.w.configs| == 0 {
          return false, "", false;
        }
        if |api.w.configs| == 1 {
          cluster := api.w.configs[0];
          assert api.w.configs[0] in api.w.configs;
        } else {
          cluster := FindVMInClusters(api, k);
          if cluster == "" {
            return false, "", false;
          }
          SomeMeansFirst(api.w, api.w.configs, k, cluster);
        }
      }
      needsAnnotation := true;
    }
    ok := GetClientForConfig(api, cluster);
    if !ok {
      return false, "", false;
    }
  }
}
