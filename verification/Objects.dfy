/**
  The Kubernetes, KubeVirt and CDI objects the operator reads and writes, reduced to the fields its
  decisions depend on. Object identity is a namespaced name; a remote object also names its cluster.
*/
module Objects {
  import opened Wrappers

  const CDROM_VOLUME_NAME := "cdrom-iso"
  const CLOUD_INIT_DISK_NAME := "cloudinitdisk"
  const DEFAULT_DISK_NAME := "root"

  datatype Key = Key(ns: string, name: string)
  datatype Ref = Ref(cluster: string, key: Key)

  // ---- Machine (supervisor cluster) ----

  datatype DiskSpec = DiskSpec(name: string, boot: bool, kind: string)

  /** Operating-system block of a Machine. `imagePath` is the path url.Parse finds in `imageID`, if any. */
  datatype OSSpec = OSSpec(distribution: string, version: string, architecture: string,
                           imageID: string, imagePath: Option<string>)

  /** A base64 text and what decoding it gives. */
  datatype Encoded = Encoded(text: string, decoded: Option<string>)

  datatype KeyRef = KeyRef(name: string, key: string)

  /** The four places cloud-init data may come from; the first that is set counts. */
  datatype Payload = Payload(inline: string, encoded: Encoded, secret: Option<KeyRef>, configMap: Option<KeyRef>)

  datatype CloudInitSpec = CloudInitSpec(userData: Payload, networkData: Payload)

  /** The cidata of a VM. */
  datatype CloudInitBundle = CloudInitBundle(userData: string, networkData: string)

  /** The parts of a Machine its users own: spec, labels and request annotations. */
  datatype MachineSpec = MachineSpec(
    os: OSSpec,
    bootFromDataVolume: bool,      // kubevirt.io/boot-source == "datavolume"
    bootSourceType: string,        // kubevirt.io/boot-source-type
    disks: seq<DiskSpec>,
    networkNamespaceName: string,
    cloudInit: Option<CloudInitSpec>,
    cluster: bool,                 // spec.tags["cluster"] is set
    clusterLabels: bool,           // cluster-id and node-role labels are set
    cdromEjected: bool,
    osInstalled: bool)

  datatype Machine = Machine(
    rv: nat,                       // resourceVersion
    deleting: bool,                // deletionTimestamp is set
    finalizer: bool,               // MachineFinalizer is present
    config: string,                // vitistack.io/kubevirt-config, "" when absent
    nadToCleanup: string,          // vitistack.io/nad-to-cleanup, "" when absent
    isoCleanedUp: bool,            // vitistack.io/iso-cleaned-up == "true"
    statusMacs: seq<string>,       // status.networkInterfaces[].macAddress
    spec: MachineSpec)

  predicate BootsFromISO(spec: MachineSpec) {
    spec.bootFromDataVolume && spec.os.imageID != ""
  }

  /** Disk names that do not collide with the two names the operator generates itself. */
  predicate AvoidsGeneratedNames(disks: seq<DiskSpec>) {
    forall i :: 0 <= i < |disks| ==> disks[i].name != CDROM_VOLUME_NAME && disks[i].name != CLOUD_INIT_DISK_NAME
  }

  // ---- NetworkConfiguration and NetworkNamespace (supervisor cluster) ----

  datatype Iface = Iface(name: string, mac: string)

  /** A parsed CIDR: the prefix length of a 4-byte mask, or a 16-byte mask. */
  datatype Prefix = PrefixV4(bits: nat) | PrefixV6

  datatype CIDR = CIDR(text: string, parsed: Option<Prefix>)

  /** What the allocation operator reports for the interface with a MAC. */
  datatype StatusIface = StatusIface(mac: string, ipv4: seq<string>, subnet: CIDR, gateway: string, dns: seq<string>)

  /** `ifaces` is the spec, `status` the allocation result. */
  datatype NC = NC(managed: bool, sourceMachine: string, provider: string, ifaces: seq<Iface>,
                   status: seq<StatusIface>, held: bool, terminating: bool)

  /** Hand-written allocation values of a NetworkNamespace. */
  datatype StaticBlock = StaticBlock(cidr: CIDR, gateway: string, dns: seq<string>)

  datatype IPAllocation = IPAllocation(isStatic: bool, provider: string, manual: Option<StaticBlock>)

  datatype NetNs = NetNs(key: Key, vlan: int, phaseReady: bool, allocation: Option<IPAllocation>)

  // ---- VirtualMachine and VirtualMachineInstance (remote cluster) ----

  datatype Bus = Virtio | Sata | Scsi
  datatype DiskDevice = DiskTarget(bus: Bus) | CDRomTarget(bus: Bus)
  datatype Disk = Disk(name: string, device: DiskDevice, bootOrder: Option<nat>)

  datatype VolumeSource =
    | PVCSource(claim: string)
    | DataVolumeSource(dv: string)
    | CloudInitNoCloud(userData: string, networkData: string)
    | OtherSource
  datatype Volume = Volume(name: string, source: VolumeSource)

  datatype Network = Network(name: string, multus: Option<string>)   // None: the pod network
  datatype Interface = Interface(name: string, bootOrder: Option<nat>, mac: string)

  datatype Template = Template(disks: seq<Disk>, volumes: seq<Volume>,
                               networks: seq<Network>, interfaces: seq<Interface>)

  /** `owned`: carries the operator's managed-by and source-machine labels. `held`: some finalizer is set. */
  datatype VM = VM(owned: bool, held: bool, terminating: bool, running: bool,
                   template: Option<Template>, dvts: seq<string>)

  datatype VMI = VMI(owned: bool, volumes: seq<Volume>, agentConnected: bool)

  /** `sourceMachine` is the source-machine label of a PVC that carries the operator's managed-by label. */
  datatype PVC = PVC(sourceMachine: Option<string>, held: bool, terminating: bool)

  datatype NAD = NAD(managed: bool, vlan: int)

  datatype Phase = Pending | ImportInProgress | Succeeded | Failed
  datatype DV = DV(sharedISO: bool, sourceURL: string, phase: Phase)

  /** A Secret or ConfigMap of the supervisor cluster. */
  datatype SourceId = SourceId(isConfigMap: bool, key: Key)

  // ---- reading objects ----

  function FindByKey(items: seq<NetNs>, key: Key): (r: Option<NetNs>)
    ensures r.Some? ==> r.value in items && r.value.key == key
    ensures r.None? ==> forall nn :: nn in items ==> nn.key != key
  {
    if items == [] then None else if items[0].key == key then Some(items[0]) else FindByKey(items[1..], key)
  }

  predicate UsesNAD(vm: VM, nad: string) {
    && vm.template.Some?
    && (exists i :: 0 <= i < |vm.template.value.networks| && vm.template.value.networks[i].multus == Some(nad))
  }

  predicate Claims(volumes: seq<Volume>, name: string) {
    exists i :: 0 <= i < |volumes| && (volumes[i].source == PVCSource(name) || volumes[i].source == DataVolumeSource(name))
  }

  predicate TemplateClaims(vm: VM, name: string) {
    vm.template.Some? && Claims(vm.template.value.volumes, name)
  }

  /** The claim behind a CDROM volume that mounts a shared boot ISO. */
  predicate CdromClaims(volumes: seq<Volume>, name: string) {
    Volume(CDROM_VOLUME_NAME, PVCSource(name)) in volumes
  }

  function ISOResourceName(vmName: string): string {
    vmName + "-iso"
  }

  /** The VM spec still names its boot CDROM in a disk, a volume or a DataVolumeTemplate. */
  predicate NamesCdrom(vm: VM, vmName: string) {
    || (vm.template.Some? && exists i :: 0 <= i < |vm.template.value.disks| && vm.template.value.disks[i].name == CDROM_VOLUME_NAME)
    || (vm.template.Some? && exists i :: 0 <= i < |vm.template.value.volumes| && vm.template.value.volumes[i].name == CDROM_VOLUME_NAME)
    || ISOResourceName(vmName) in vm.dvts
  }

  /** The MAC resolved for an interface name: its first entry with a non-empty MAC, "" when there is none. */
  function MacFor(ifaces: seq<Iface>, name: string): (mac: string)
    ensures mac != "" ==> Iface(name, mac) in ifaces
  {
    if ifaces == [] then ""
    else if ifaces[0].name == name && ifaces[0].mac != "" then ifaces[0].mac
    else MacFor(ifaces[1..], name)
  }
}
