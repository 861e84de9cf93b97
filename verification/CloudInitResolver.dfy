/** resolveCloudInit of internal/machine/vm/cloudinit.go and the reads it makes. A read that fails breaks the attempt. */
module CloudInitResolver {
  import opened Wrappers
  import opened Objects
  import opened Worlds
  import opened Apis
  import opened CloudInitSources
  import CloudInit

  method ReadDataKey(api: Api, ns: string, isConfigMap: bool, from: KeyRef, defaultKey: string) returns (d: Data)
    modifies api`faults
    ensures d == ReadKey(api.w, ns, isConfigMap, from, defaultKey) || d == Broken
    ensures old(api.faults) == [] ==> api.faults == [] && d == ReadKey(api.w, ns, isConfigMap, from, defaultKey)
  {
    var key := from.key;
    if key == "" {
      key := defaultKey;
    }
    var got := api.Read();
    if !got {
      return Broken;
    }
    var id := SourceId(isConfigMap, Key(ns, from.name));
    d := if id !in api.w.sources || key !in api.w.sources[id] then NoSourceYet else Text(api.w.sources[id][key]);
  }

  /** The first source that is set; None when none is. */
  method ReadPayload(api: Api, ns: string, p: Payload, defaultKey: string) returns (d: Option<Data>)
    modifies api`faults
    ensures d.Some? <==> IsSet(p)
    ensures d.Some? ==> d.value == PayloadOf(api.w, ns, p, defaultKey) || d.value == Broken
    ensures old(api.faults) == [] ==> api.faults == [] && (d.Some? ==> d.value == PayloadOf(api.w, ns, p, defaultKey))
  {
    var value;
    if p.inline != "" {
      value := Text(p.inline);
    } else if p.encoded.text != "" {
      value := if p.encoded.decoded.Some? then Text(p.encoded.decoded.value) else Broken;
    } else if p.secret.Some? {
      value := ReadDataKey(api, ns, false, p.secret.value, defaultKey);
    } else if p.configMap.Some? {
      value := ReadDataKey(api, ns, true, p.configMap.value, defaultKey);
    } else {
      return None;
    }
    d := Some(value);
  }

  method SynthesizeNetworkDataFromStaticIP(api: Api, k: Key, spec: MachineSpec) returns (d: Data)
    modifies api`faults
    ensures d == SynthesizedOf(api.w, k, spec) || d == Broken
    ensures old(api.faults) == [] ==> api.faults == [] && d == SynthesizedOf(api.w, k, spec)
  {
    if spec.networkNamespaceName == "" {
      return Text("");
    }
    var got := api.Read();
    if !got {
      return Broken;
    }
    var nn := FindByKey(api.w.netns, Key(k.ns, spec.networkNamespaceName));
    if nn.None? || nn.value.allocation.None? || !nn.value.allocation.value.isStatic {
      return Text("");
    }
    if !nn.value.phaseReady {
      return Broken;
    }
    got := api.Read();
    if !got {
      return Broken;
    }
    if k !in api.w.ncs {
      return NoIPYet;
    }
    var nc := api.w.ncs[k];
    var r := CloudInit.RenderNetworkConfigV1(CloudInit.Config(nc.ifaces, nc.status, nn.value.allocation.value.manual));
    match r {
      case Text(text) => d := Text(text);
      case WaitingForStaticIP => d := NoIPYet;
      case BadCIDR => d := Broken;
    }
  }

  /** User data first, then network data; what is stored alone decides unless a read fails. */
  method ResolveCloudInit(api: Api, k: Key, spec: MachineSpec) returns (r: CloudInitResult)
    modifies api`faults
    ensures r == CloudInitOf(api.w, k, spec) || r == Unresolvable
    ensures old(api.faults) == [] ==> api.faults == [] && r == CloudInitOf(api.w, k, spec)
  {
    if spec.cloudInit.None? {
      return NoCloudInit;
    }
    var ci := spec.cloudInit.value;
    var given := ReadPayload(api, k.ns, ci.userData, "userdata");
    var user := if given.Some? then given.value else Text("#cloud-config\n");
    match user {
      case NoIPYet => return WaitingForIP;
      case NoSourceYet => return WaitingForSource;
      case Broken => return Unresolvable;
      case Text(_) =>
    }
    given := ReadPayload(api, k.ns, ci.networkData, "networkdata");
    var network;
    if given.Some? {
      network := given.value;
    } else {
      network := SynthesizeNetworkDataFromStaticIP(api, k, spec);
    }
    match network {
      case NoIPYet => r := WaitingForIP;
      case NoSourceYet => r := WaitingForSource;
      case Broken => r := Unresolvable;
      case Text(text) => r := Resolved(CloudInitBundle(user.value, text));
    }
  }
}
