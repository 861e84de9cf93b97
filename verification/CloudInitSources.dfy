/**
  What cloud-init data a Machine gets: the resolve functions of internal/machine/vm/cloudinit.go as functions of the
  stored objects, and what a synthesized network-config says about the VM's interface.
*/
module CloudInitSources {
  import opened Wrappers
  import opened Strings
  import opened Objects
  import opened Worlds
  import CloudInit

  const DefaultUserDataKey := "userdata"
  const DefaultNetworkDataKey := "networkdata"
  const NoopUserData := "#cloud-config\n"

  datatype Data = Text(value: string) | NoIPYet | NoSourceYet | Broken

  datatype CloudInitResult = NoCloudInit | Resolved(bundle: CloudInitBundle) | WaitingForIP | WaitingForSource | Unresolvable

  // ---- Secrets, ConfigMaps and inline data ----

  function ReadKey(w: World, ns: string, isConfigMap: bool, from: KeyRef, defaultKey: string): Data {
    var id := SourceId(isConfigMap, Key(ns, from.name));
    var key := if from.key == "" then defaultKey else from.key;
    if id in w.sources && key in w.sources[id] then Text(w.sources[id][key]) else NoSourceYet
  }

  predicate IsSet(p: Payload) { p.inline != "" || p.encoded.text != "" || p.secret.Some? || p.configMap.Some? }

  function PayloadOf(w: World, ns: string, p: Payload, defaultKey: string): Data
    requires IsSet(p)
  {
    if p.inline != "" then Text(p.inline)
    else if p.encoded.text != "" then (if p.encoded.decoded.Some? then Text(p.encoded.decoded.value) else Broken)
    else if p.secret.Some? then ReadKey(w, ns, false, p.secret.value, defaultKey)
    else ReadKey(w, ns, true, p.configMap.value, defaultKey)
  }

  // ---- synthesized network-config ----

  function StaticNetNs(w: World, k: Key, spec: MachineSpec): Option<NetNs> {
    if spec.networkNamespaceName == "" then None
    else
      var nn := FindByKey(w.netns, Key(k.ns, spec.networkNamespaceName));
      if nn.Some? && nn.value.allocation.Some? && nn.value.allocation.value.isStatic then nn else None
  }

  function ConfigOf(nc: NC, nn: NetNs): CloudInit.Config {
    CloudInit.Config(nc.ifaces, nc.status, if nn.allocation.Some? then nn.allocation.value.manual else None)
  }

  function FromRendering(r: CloudInit.Rendered): Data {
    match r
    case Text(text) => Text(text)
    case WaitingForStaticIP => NoIPYet
    case BadCIDR => Broken
  }

  function SynthesizedOf(w: World, k: Key, spec: MachineSpec): Data {
    var nn := StaticNetNs(w, k, spec);
    if nn.None? then Text("")
    else if !nn.value.phaseReady then Broken
    else if k !in w.ncs then NoIPYet
    else FromRendering(CloudInit.Rendering(ConfigOf(w.ncs[k], nn.value)))
  }

  // ---- both together ----

  function UserDataOf(w: World, k: Key, ci: CloudInitSpec): Data {
    if IsSet(ci.userData) then PayloadOf(w, k.ns, ci.userData, DefaultUserDataKey) else Text(NoopUserData)
  }

  function NetworkDataOf(w: World, k: Key, spec: MachineSpec, ci: CloudInitSpec): Data {
    if IsSet(ci.networkData) then PayloadOf(w, k.ns, ci.networkData, DefaultNetworkDataKey) else SynthesizedOf(w, k, spec)
  }

  function Combined(user: Data, network: Data): CloudInitResult {
    match user
    case NoIPYet => WaitingForIP
    case NoSourceYet => WaitingForSource
    case Broken => Unresolvable
    case Text(u) =>
      match network
      case NoIPYet => WaitingForIP
      case NoSourceYet => WaitingForSource
      case Broken => Unresolvable
      case Text(n) => Resolved(CloudInitBundle(u, n))
  }

  function CloudInitOf(w: World, k: Key, spec: MachineSpec): CloudInitResult {
    match spec.cloudInit
    case None => NoCloudInit
    case Some(ci) => Combined(UserDataOf(w, k, ci), NetworkDataOf(w, k, spec, ci))
  }

  predicate Available(r: CloudInitResult) { r.NoCloudInit? || r.Resolved? }

  function BundleOf(r: CloudInitResult): Option<CloudInitBundle> { if r.Resolved? then Some(r.bundle) else None }

  lemma CloudInitDependsOn(w: World, w': World, k: Key, spec: MachineSpec)
    requires w'.netns == w.netns && w'.sources == w.sources && (k in w.ncs <==> k in w'.ncs)
    requires k in w.ncs ==> w'.ncs[k].ifaces == w.ncs[k].ifaces && w'.ncs[k].status == w.ncs[k].status
    ensures CloudInitOf(w', k, spec) == CloudInitOf(w, k, spec)
  {
  }

  // ---- the MAC in a synthesized network-config ----

  /** The network-config is synthesized from a static allocation. */
  predicate Synthesizes(w: World, k: Key, spec: MachineSpec) {
    spec.cloudInit.Some? && !IsSet(spec.cloudInit.value.networkData) && StaticNetNs(w, k, spec).Some?
  }

  /** The first stanza with the interface's name carries its MAC, in lower case. */
  ghost predicate StanzaCarries(ss: seq<CloudInit.Stanza>, x: Interface) {
    exists j :: 0 <= j < |ss| && ss[j].name == x.name && ss[j].mac == ToLower(x.mac) && forall i :: 0 <= i < j ==> ss[i].name != x.name
  }

  function SynthesizedStanzas(w: World, k: Key, spec: MachineSpec): Option<seq<CloudInit.Stanza>> {
    var nn := StaticNetNs(w, k, spec);
    if nn.None? || k !in w.ncs then None
    else var c := ConfigOf(w.ncs[k], nn.value); CloudInit.Stanzas(c, |c.spec|)
  }

  /** If the Machine's network-config is synthesized, the VM holds it, and it names each interface of the VM with its MAC. */
  ghost predicate NetworkDataAgrees(w: World, k: Key, vm: VM) {
    k in w.machines && vm.template.Some? && Synthesizes(w, k, w.machines[k].spec) ==>
      var ss := SynthesizedStanzas(w, k, w.machines[k].spec);
      && ss.Some?
      && (exists user :: Volume(CLOUD_INIT_DISK_NAME, CloudInitNoCloud(user, CloudInit.Printed(ss.value))) in vm.template.value.volumes)
      && (forall i :: 0 <= i < |vm.template.value.interfaces| ==> StanzaCarries(ss.value, vm.template.value.interfaces[i]))
  }

  predicate AllMacs(ifaces: seq<Iface>) { forall i :: 0 <= i < |ifaces| ==> ifaces[i].mac != "" }

  lemma {:induction false} FirstEntry(ifaces: seq<Iface>, name: string) returns (j: nat)
    requires AllMacs(ifaces) && MacFor(ifaces, name) != ""
    ensures j < |ifaces| && ifaces[j] == Iface(name, MacFor(ifaces, name)) && forall i :: 0 <= i < j ==> ifaces[i].name != name
  {
    if ifaces[0].name == name {
      j := 0;
    } else {
      j := FirstEntry(ifaces[1..], name);
      j := j + 1;
    }
  }

  lemma RenderedHaveMacs(c: CloudInit.Config)
    requires CloudInit.Stanzas(c, |c.spec|).Some?
    ensures AllMacs(c.spec)
  {
    CloudInit.StanzasAre(c, |c.spec|);
    forall i | 0 <= i < |c.spec| ensures c.spec[i].mac != "" { CloudInit.StanzaExistsIff(c, i); }
  }

  /** No generated interface name is `name`. */
  predicate PlainName(name: string) { name != "" && name[0] != 'e' }

  lemma InterfaceStanza(c: CloudInit.Config, x: Interface)
    requires CloudInit.Stanzas(c, |c.spec|).Some? && x.mac != "" && MacFor(c.spec, x.name) == x.mac && PlainName(x.name)
    ensures StanzaCarries(CloudInit.Stanzas(c, |c.spec|).value, x)
  {
    var ss := CloudInit.Stanzas(c, |c.spec|).value;
    RenderedHaveMacs(c);
    CloudInit.StanzasAre(c, |c.spec|);
    var j := FirstEntry(c.spec, x.name);
    forall i: nat | i <= j ensures ss[i].name == CloudInit.DisplayName(c.spec[i], i) && ss[i].mac == ToLower(c.spec[i].mac) {
      assert CloudInit.StanzaAt(c, i) == Some(ss[i]);
    }
    hide CloudInit.Stanzas;
    assert forall i :: 0 <= i < j ==> ss[i].name != x.name;
  }

  lemma SynthesizedIsPrinted(w: World, k: Key, spec: MachineSpec)
    requires Synthesizes(w, k, spec) && CloudInitOf(w, k, spec).Resolved? && k in w.ncs && w.ncs[k].ifaces != []
    ensures SynthesizedStanzas(w, k, spec).Some?
    ensures CloudInitOf(w, k, spec).bundle.networkData == CloudInit.Printed(SynthesizedStanzas(w, k, spec).value)
  {
    var c := ConfigOf(w.ncs[k], StaticNetNs(w, k, spec).value);
    hide CloudInit.Printed, CloudInit.Stanzas, FindByKey;
    assert CloudInit.Rendering(c).Text?;
    RenderedTextHasStanzas(c, |c.spec|);
  }

  lemma {:induction false} RenderedTextHasStanzas(c: CloudInit.Config, n: nat)
    requires n <= |c.spec| && CloudInit.RenderedUpTo(c, n).Text?
    ensures CloudInit.Stanzas(c, n).Some?
  {
    hide CloudInit.Printed, CloudInit.Found, CloudInit.StanzaAt;
    if n > 0 && CloudInit.Stanzas(c, n).None? && CloudInit.Stanzas(c, n - 1).None? { RenderedTextHasStanzas(c, n - 1); }
  }

  /** A VM whose network interfaces carry the stored MACs, with the resolved bundle as its cidata. */
  lemma ResolvedAgrees(w: World, k: Key, vm: VM)
    requires k in w.machines && k in w.ncs && vm.template.Some? && |vm.template.value.interfaces| > 0
    requires Available(CloudInitOf(w, k, w.machines[k].spec))
    requires var r := CloudInitOf(w, k, w.machines[k].spec);
             r.Resolved? ==> Volume(CLOUD_INIT_DISK_NAME, CloudInitNoCloud(r.bundle.userData, r.bundle.networkData)) in vm.template.value.volumes
    requires forall i :: 0 <= i < |vm.template.value.interfaces| ==>
               var x := vm.template.value.interfaces[i]; PlainName(x.name) && x.mac != "" && MacFor(w.ncs[k].ifaces, x.name) == x.mac
    ensures NetworkDataAgrees(w, k, vm)
  {
    var spec := w.machines[k].spec;
    if Synthesizes(w, k, spec) {
      assert w.ncs[k].ifaces != [] by {
        var x := vm.template.value.interfaces[0];
        assert MacFor(w.ncs[k].ifaces, x.name) == x.mac;
      }
      SynthesizedIsPrinted(w, k, spec);
      var c := ConfigOf(w.ncs[k], StaticNetNs(w, k, spec).value);
      forall i | 0 <= i < |vm.template.value.interfaces| ensures StanzaCarries(SynthesizedStanzas(w, k, spec).value, vm.template.value.interfaces[i]) {
        InterfaceStanza(c, vm.template.value.interfaces[i]);
      }
    }
  }

  // ---- waiting, and what ends it ----

  /** Every interface has a MAC once the first one called `name` is given one. */
  predicate Fillable(ifaces: seq<Iface>, name: string) {
    if ifaces == [] then true
    else if ifaces[0].name == name then AllMacs(ifaces[1..])
    else ifaces[0].mac != "" && Fillable(ifaces[1..], name)
  }

  /** An allocation that gives every interface an address. */
  function AllocationFor(ifaces: seq<Iface>): seq<StatusIface> {
    seq(|ifaces|, i requires 0 <= i < |ifaces| =>
      StatusIface(ifaces[i].mac, ["10.0.0.5"], CIDR("10.0.0.0/24", Some(PrefixV4(24))), "", []))
  }

  lemma {:induction false} SomeMatchIsFound(status: seq<StatusIface>, key: string, i: nat)
    requires i < |status| && CloudInit.Matches(status[i], key)
    ensures CloudInit.LastWithMac(status, key).Some? && CloudInit.LastWithMac(status, key).value in status
  {
    var n := |status| - 1;
    if !CloudInit.Matches(status[n], key) {
      SomeMatchIsFound(status[..n], key, i);
    }
  }

  lemma AllocatedRenders(ifaces: seq<Iface>, manual: Option<StaticBlock>)
    requires AllMacs(ifaces)
    ensures CloudInit.Rendering(CloudInit.Config(ifaces, AllocationFor(ifaces), manual)).Text?
  {
    var c := CloudInit.Config(ifaces, AllocationFor(ifaces), manual);
    forall i: nat | i < |ifaces| ensures CloudInit.StanzaAt(c, i).Some? {
      SomeMatchIsFound(c.status, ToLower(ifaces[i].mac), i);
    }
    CloudInit.StanzasAre(c, |ifaces|);
  }

  lemma RenderingNeedsMacs(c: CloudInit.Config)
    requires CloudInit.Rendering(c).Text?
    ensures AllMacs(c.spec)
  {
    if c.spec != [] {
      RenderedTextHasStanzas(c, |c.spec|);
      RenderedHaveMacs(c);
    }
  }

  /** An allocation can end the wait exactly when every interface has a MAC. */
  lemma AllocationCanCompleteIff(ifaces: seq<Iface>, manual: Option<StaticBlock>)
    ensures (exists status :: CloudInit.Rendering(CloudInit.Config(ifaces, status, manual)).Text?) <==> AllMacs(ifaces)
  {
    if AllMacs(ifaces) {
      AllocatedRenders(ifaces, manual);
    }
    forall status | CloudInit.Rendering(CloudInit.Config(ifaces, status, manual)).Text? ensures AllMacs(ifaces) {
      RenderingNeedsMacs(CloudInit.Config(ifaces, status, manual));
    }
  }

  predicate Decodes(p: Payload) { p.inline == "" && p.encoded.text != "" ==> p.encoded.decoded.Some? }

  /** Nothing but Secrets, ConfigMaps and addresses is missing. */
  predicate Completable(w: World, k: Key, spec: MachineSpec) {
    match spec.cloudInit
    case None => true
    case Some(ci) =>
      Decodes(ci.userData) && Decodes(ci.networkData) &&
      (Synthesizes(w, k, spec) ==> StaticNetNs(w, k, spec).value.phaseReady && k in w.ncs && AllMacs(w.ncs[k].ifaces))
  }

  function Supplied(sources: map<SourceId, map<string, string>>, ns: string, p: Payload, defaultKey: string): map<SourceId, map<string, string>> {
    if !IsSet(p) || p.inline != "" || p.encoded.text != "" then sources
    else
      var ref := if p.secret.Some? then p.secret.value else p.configMap.value;
      var id := SourceId(p.secret.None?, Key(ns, ref.name));
      var key := if ref.key == "" then defaultKey else ref.key;
      var data := if id in sources then sources[id] else map[];
      if key in data then sources else sources[id := data[key := ""]]
  }

  /** The missing Secrets, ConfigMaps and addresses have been supplied. */
  function Completed(w: World, k: Key, spec: MachineSpec): World {
    if spec.cloudInit.None? then w
    else
      var ci := spec.cloudInit.value;
      var sources := Supplied(Supplied(w.sources, k.ns, ci.userData, DefaultUserDataKey), k.ns, ci.networkData, DefaultNetworkDataKey);
      w.(sources := sources,
         ncs := if k in w.ncs then w.ncs[k := w.ncs[k].(status := AllocationFor(w.ncs[k].ifaces))] else w.ncs)
  }

  lemma SuppliedResolves(w: World, ns: string, p: Payload, defaultKey: string)
    requires IsSet(p) && Decodes(p) && w.sources == Supplied(w.sources, ns, p, defaultKey)
    ensures PayloadOf(w, ns, p, defaultKey).Text?
  {
  }

  lemma SuppliedStays(sources: map<SourceId, map<string, string>>, ns: string, p: Payload, q: Payload, d: string, e: string)
    ensures var s1 := Supplied(sources, ns, p, d);
            Supplied(s1, ns, p, d) == s1 && Supplied(Supplied(s1, ns, q, e), ns, p, d) == Supplied(s1, ns, q, e)
  {
  }

  /** Supplying what is missing ends the wait exactly when it can be ended. */
  lemma CompletedIsAvailable(w: World, k: Key, spec: MachineSpec)
    requires Completable(w, k, spec)
    ensures Available(CloudInitOf(Completed(w, k, spec), k, spec))
  {
    if spec.cloudInit.Some? {
      var ci := spec.cloudInit.value;
      var w' := Completed(w, k, spec);
      SuppliedStays(w.sources, k.ns, ci.userData, ci.networkData, DefaultUserDataKey, DefaultNetworkDataKey);
      SuppliedStays(Supplied(w.sources, k.ns, ci.userData, DefaultUserDataKey), k.ns, ci.networkData, ci.networkData, DefaultNetworkDataKey, DefaultNetworkDataKey);
      if IsSet(ci.userData) { SuppliedResolves(w', k.ns, ci.userData, DefaultUserDataKey); }
      if IsSet(ci.networkData) {
        SuppliedResolves(w', k.ns, ci.networkData, DefaultNetworkDataKey);
      } else if StaticNetNs(w, k, spec).Some? {
        var nn := StaticNetNs(w, k, spec).value;
        AllocatedRenders(w.ncs[k].ifaces, ConfigOf(w.ncs[k], nn).manual);
        assert ConfigOf(w'.ncs[k], nn) == CloudInit.Config(w.ncs[k].ifaces, AllocationFor(w.ncs[k].ifaces), ConfigOf(w.ncs[k], nn).manual);
      }
    }
  }

  /** Data, addresses and sources alone decide: without a decodable payload or with a blank MAC the wait never ends. */
  lemma AvailableIsCompletable(w: World, k: Key, spec: MachineSpec)
    requires Available(CloudInitOf(w, k, spec))
    ensures spec.cloudInit.Some? ==> Decodes(spec.cloudInit.value.userData)
    ensures spec.cloudInit.Some? && IsSet(spec.cloudInit.value.networkData) ==> Decodes(spec.cloudInit.value.networkData)
    ensures Synthesizes(w, k, spec) ==> StaticNetNs(w, k, spec).value.phaseReady && k in w.ncs && AllMacs(w.ncs[k].ifaces)
    ensures Completable(w, k, spec)
  {
    if Synthesizes(w, k, spec) {
      RenderingNeedsMacs(ConfigOf(w.ncs[k], StaticNetNs(w, k, spec).value));
    }
  }

  /** What others may do about the cidata of a Machine: supply sources and allocate addresses. */
  ghost predicate OnlySupplies(w: World, w': World, k: Key) {
    && w'.netns == w.netns && (k in w'.ncs <==> k in w.ncs)
    && (k in w.ncs ==> w'.ncs[k].ifaces == w.ncs[k].ifaces)
  }

  lemma CompletableDependsOn(w: World, w': World, k: Key, spec: MachineSpec)
    requires OnlySupplies(w, w', k)
    ensures Completable(w', k, spec) == Completable(w, k, spec)
  {
    hide FindByKey;
  }

  /** Cloud-init can become available without the operator exactly when only sources and addresses are missing. */
  lemma CanBecomeAvailableIff(w: World, k: Key, spec: MachineSpec)
    ensures (exists w' :: OnlySupplies(w, w', k) && Available(CloudInitOf(w', k, spec))) <==> Completable(w, k, spec)
  {
    assert OnlySupplies(w, Completed(w, k, spec), k);
    hide CloudInitOf, Completable, Completed;
    if Completable(w, k, spec) {
      CompletedIsAvailable(w, k, spec);
    }
    forall w' | OnlySupplies(w, w', k) && Available(CloudInitOf(w', k, spec)) ensures Completable(w, k, spec) {
      AvailableIsCompletable(w', k, spec);
      CompletableDependsOn(w, w', k, spec);
    }
  }
}
