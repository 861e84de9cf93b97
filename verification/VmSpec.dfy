/**
  Disks, volumes and boot orders of a new VirtualMachine: internal/machine/vm/disk_builder.go, the PVC names of
  internal/machine/storage/storage_manager.go and the boot order of the network interface.
*/
module VmSpec {
  import opened Wrappers
  import opened Objects
  import opened Decimals
  import IsoNames

  // ---- names ----

  function GeneratedPvcSuffix(i: nat): string { "disk" + Decimal(i) }

  function PvcName(vmName: string, disk: DiskSpec, i: nat): string {
    if disk.boot then vmName
    else if disk.name != "" then vmName + "-" + disk.name
    else vmName + "-" + GeneratedPvcSuffix(i)
  }

  function PvcNames(vmName: string, disks: seq<DiskSpec>): (names: seq<string>)
    ensures |names| >= 1 && |names| >= |disks|
  {
    if disks == [] then [vmName]
    else seq(|disks|, i requires 0 <= i < |disks| => PvcName(vmName, disks[i], i))
  }

  function GeneratedDiskName(i: nat): string { if i == 0 then DEFAULT_DISK_NAME else "disk" + Decimal(i) }

  function DiskName(disk: DiskSpec, i: nat): string {
    if disk.name != "" then disk.name else GeneratedDiskName(i)
  }

  // ---- building ----

  function BusFor(kind: string): Bus {
    if kind == "sata" then Sata else if kind == "scsi" then Scsi else Virtio
  }

  function DeviceFor(disk: DiskSpec, i: nat): Disk {
    Disk(DiskName(disk, i), DiskTarget(BusFor(disk.kind)), if disk.boot then Some(1) else None)
  }

  function DataDisks(disks: seq<DiskSpec>): seq<Disk> {
    if disks == [] then [Disk(DEFAULT_DISK_NAME, DiskTarget(Virtio), Some(1))]
    else seq(|disks|, i requires 0 <= i < |disks| => DeviceFor(disks[i], i))
  }

  function DataVolumes(disks: seq<DiskSpec>, pvcNames: seq<string>): seq<Volume>
    requires |pvcNames| >= 1 && |pvcNames| >= |disks|
  {
    if disks == [] then [Volume(DEFAULT_DISK_NAME, PVCSource(pvcNames[0]))]
    else seq(|disks|, i requires 0 <= i < |disks| => Volume(DiskName(disks[i], i), PVCSource(pvcNames[i])))
  }

  method DetermineBusType(kind: string) returns (bus: Bus)
    ensures bus == BusFor(kind)
  {
    if kind == "" {
      return Virtio;
    }
    match kind {
      case "nvme" => bus := Virtio;
      case "sata" => bus := Sata;
      case "scsi" => bus := Scsi;
      case _ => bus := Virtio;
    }
  }

  method BuildDisksAndVolumes(specs: seq<DiskSpec>, pvcNames: seq<string>) returns (disks: seq<Disk>, volumes: seq<Volume>)
    requires |pvcNames| >= 1 && |pvcNames| >= |specs|
    ensures disks == DataDisks(specs) && volumes == DataVolumes(specs, pvcNames)
  {
    disks, volumes := [], [];
    if |specs| == 0 {
      disks := disks + [Disk(DEFAULT_DISK_NAME, DiskTarget(Virtio), Some(1))];
      volumes := volumes + [Volume(DEFAULT_DISK_NAME, PVCSource(pvcNames[0]))];
      return;
    }
    for i := 0 to |specs|
      invariant |disks| == |volumes| == i
      invariant disks == DataDisks(specs)[..i] && volumes == DataVolumes(specs, pvcNames)[..i]
    {
      var diskName := DEFAULT_DISK_NAME;
      if specs[i].name != "" {
        diskName := specs[i].name;
      } else if i > 0 {
        diskName := "disk" + Decimal(i);
      }
      var bus := DetermineBusType(specs[i].kind);
      var disk := Disk(diskName, DiskTarget(bus), None);
      if specs[i].boot {
        disk := disk.(bootOrder := Some(1));
      }
      disks := disks + [disk];
      volumes := volumes + [Volume(diskName, PVCSource(pvcNames[i]))];
    }
  }

  function ISOVolume(spec: MachineSpec, vmName: string, shared: bool): Volume {
    Volume(CDROM_VOLUME_NAME,
           if shared then PVCSource(IsoNames.SharedISOResourceName(spec.os)) else DataVolumeSource(ISOResourceName(vmName)))
  }

  const ISODisk := Disk(CDROM_VOLUME_NAME, CDRomTarget(Sata), Some(2))
  const CloudInitDisk := Disk(CLOUD_INIT_DISK_NAME, DiskTarget(Virtio), None)

  function AllDisks(spec: MachineSpec, ci: Option<CloudInitBundle>): seq<Disk> {
    DataDisks(spec.disks)
      + (if BootsFromISO(spec) then [ISODisk] else [])
      + (if ci.Some? then [CloudInitDisk] else [])
  }

  function AllVolumes(spec: MachineSpec, vmName: string, shared: bool, ci: Option<CloudInitBundle>): seq<Volume> {
    DataVolumes(spec.disks, PvcNames(vmName, spec.disks))
      + (if BootsFromISO(spec) then [ISOVolume(spec, vmName, shared)] else [])
      + (if ci.Some? then [Volume(CLOUD_INIT_DISK_NAME, CloudInitNoCloud(ci.value.userData, ci.value.networkData))] else [])
  }

  /** The network interface boots second, and only when there is no image to boot from. */
  function NICBootOrder(spec: MachineSpec): Option<nat> {
    if spec.os.imageID == "" then Some(2) else None
  }

  // ---- well-formedness ----

  predicate Distinct(names: seq<string>) {
    forall i, j :: 0 <= i < j < |names| ==> names[i] != names[j]
  }

  predicate AtMostOneBoot(disks: seq<DiskSpec>) {
    forall i, j :: 0 <= i < j < |disks| ==> !(disks[i].boot && disks[j].boot)
  }

  /** Given data-disk names differ from each other and from the PVC suffixes of unnamed data disks. */
  predicate DataNamesDiffer(disks: seq<DiskSpec>) {
    && (forall i, j :: 0 <= i < j < |disks| && !disks[i].boot && !disks[j].boot && disks[i].name != "" ==> disks[i].name != disks[j].name)
    && (forall i, j :: 0 <= i < |disks| && 0 <= j < |disks| && !disks[i].boot && !disks[j].boot && disks[i].name != "" && disks[j].name == ""
          ==> disks[i].name != GeneratedPvcSuffix(j))
  }

  lemma GeneratedSuffixInjective(i: nat, j: nat)
    requires GeneratedPvcSuffix(i) == GeneratedPvcSuffix(j)
    ensures i == j
  {
    assert Decimal(i) == GeneratedPvcSuffix(i)[4..] && Decimal(j) == GeneratedPvcSuffix(j)[4..];
    DecimalInjective(i, j);
  }

  function PvcSuffix(disk: DiskSpec, i: nat): string {
    if disk.name != "" then disk.name else GeneratedPvcSuffix(i)
  }

  lemma PvcNamesEqual(vmName: string, a: DiskSpec, i: nat, b: DiskSpec, j: nat)
    ensures PvcName(vmName, a, i) == PvcName(vmName, b, j) <==>
              (a.boot && b.boot) || (!a.boot && !b.boot && PvcSuffix(a, i) == PvcSuffix(b, j))
  {
    var prefix := vmName + "-";
    assert (prefix + PvcSuffix(a, i))[|prefix|..] == PvcSuffix(a, i);
    assert (prefix + PvcSuffix(b, j))[|prefix|..] == PvcSuffix(b, j);
  }

  /** Two disks of a Machine never share a PVC exactly when at most one boots and the data disks' names differ. */
  lemma PvcNamesDistinctIff(vmName: string, disks: seq<DiskSpec>)
    ensures Distinct(PvcNames(vmName, disks)) <==> AtMostOneBoot(disks) && DataNamesDiffer(disks)
  {
    var names := PvcNames(vmName, disks);
    forall i, j | 0 <= i < j < |disks|
      ensures names[i] == names[j] <==>
                ((disks[i].boot && disks[j].boot)
                 || (!disks[i].boot && !disks[j].boot && PvcSuffix(disks[i], i) == PvcSuffix(disks[j], j)))
    {
      PvcNamesEqual(vmName, disks[i], i, disks[j], j);
    }
    if AtMostOneBoot(disks) && DataNamesDiffer(disks) {
      forall i, j | 0 <= i < j < |names| ensures names[i] != names[j] {
        if disks[i].name == "" && disks[j].name == "" && GeneratedPvcSuffix(i) == GeneratedPvcSuffix(j) {
          GeneratedSuffixInjective(i, j);
        }
      }
    }
    if Distinct(names) {
      assert forall i, j :: 0 <= i < j < |disks| ==> names[i] != names[j];
      forall i, j | 0 <= i < |disks| && 0 <= j < |disks| && !disks[i].boot && !disks[j].boot
          && disks[i].name != "" && disks[j].name == ""
        ensures disks[i].name != GeneratedPvcSuffix(j)
      {
        if i < j { assert names[i] != names[j]; } else { assert names[j] != names[i]; }
      }
    }
  }

  /** A first disk left unnamed and a disk named "disk0" get different devices but one PVC. */
  lemma UnnamedFirstDiskCanCollide(vmName: string)
    ensures var disks := [DiskSpec("", false, ""), DiskSpec("disk0", false, "")];
            AtMostOneBoot(disks) && DataDisks(disks)[0].name != DataDisks(disks)[1].name
            && PvcNames(vmName, disks)[0] == PvcNames(vmName, disks)[1]
  {
    assert Decimal(0) == "0";
  }

  /** Some data disk is called "iso". */
  predicate HasISODisk(disks: seq<DiskSpec>) {
    exists i :: 0 <= i < |disks| && !disks[i].boot && disks[i].name == "iso"
  }

  lemma PvcNameIsISOIff(vmName: string, disk: DiskSpec, i: nat)
    ensures PvcName(vmName, disk, i) == ISOResourceName(vmName) <==> !disk.boot && disk.name == "iso"
  {
    assert |vmName| < |ISOResourceName(vmName)|;
    var prefix := vmName + "-";
    assert ISOResourceName(vmName) == prefix + "iso";
    assert (prefix + "iso")[|prefix|..] == "iso";
    assert (prefix + PvcSuffix(disk, i))[|prefix|..] == PvcSuffix(disk, i);
    assert GeneratedPvcSuffix(i)[0] == 'd' && "iso"[0] == 'i';
  }

  /** The name of the per-VM boot ISO is that of a disk's PVC exactly when a data disk is called "iso". */
  lemma ISOClaimIsDiskClaimIff(vmName: string, disks: seq<DiskSpec>)
    ensures ISOResourceName(vmName) in PvcNames(vmName, disks) <==> HasISODisk(disks)
  {
    var names := PvcNames(vmName, disks);
    assert |vmName| < |ISOResourceName(vmName)|;
    forall i | 0 <= i < |disks| ensures names[i] == ISOResourceName(vmName) <==> !disks[i].boot && disks[i].name == "iso" {
      PvcNameIsISOIff(vmName, disks[i], i);
    }
    if HasISODisk(disks) {
      var i :| 0 <= i < |disks| && !disks[i].boot && disks[i].name == "iso";
      assert names[i] in names;
    }
  }

  /** Every claim a new VM mounts: its disks' PVCs, then its boot ISO. */
  function ClaimNames(spec: MachineSpec, vmName: string, shared: bool): seq<string> {
    PvcNames(vmName, spec.disks)
      + (if !BootsFromISO(spec) then [] else if shared then [IsoNames.SharedISOResourceName(spec.os)] else [ISOResourceName(vmName)])
  }

  lemma VolumesMountClaims(spec: MachineSpec, vmName: string, shared: bool, ci: Option<CloudInitBundle>, i: nat)
    requires i < |ClaimNames(spec, vmName, shared)|
    ensures var name := ClaimNames(spec, vmName, shared)[i];
            i < |AllVolumes(spec, vmName, shared, ci)|
            && AllVolumes(spec, vmName, shared, ci)[i].source in {PVCSource(name), DataVolumeSource(name)}
  {
    DisksPairWithVolumes(spec, vmName, shared, ci);
  }

  /** No two volumes of a VM share a claim exactly when the disks' PVCs differ and none is that of the boot ISO. */
  lemma ClaimsDistinctIff(spec: MachineSpec, vmName: string, shared: bool)
    ensures Distinct(ClaimNames(spec, vmName, shared)) <==>
              && AtMostOneBoot(spec.disks) && DataNamesDiffer(spec.disks)
              && (BootsFromISO(spec) ==>
                    if shared then IsoNames.SharedISOResourceName(spec.os) !in PvcNames(vmName, spec.disks)
                    else !HasISODisk(spec.disks))
  {
    var pvcs, claims := PvcNames(vmName, spec.disks), ClaimNames(spec, vmName, shared);
    PvcNamesDistinctIff(vmName, spec.disks);
    ISOClaimIsDiskClaimIff(vmName, spec.disks);
    hide PvcNames, AtMostOneBoot, DataNamesDiffer, HasISODisk, IsoNames.SharedISOResourceName;
    assert claims[..|pvcs|] == pvcs;
    if BootsFromISO(spec) {
      var iso := claims[|pvcs|];
      if iso in pvcs {
        var i :| 0 <= i < |pvcs| && pvcs[i] == iso;
        assert claims[i] == claims[|pvcs|];
      }
    }
    assert Distinct(claims) ==> Distinct(pvcs) by {
      if Distinct(claims) {
        forall i, j | 0 <= i < j < |pvcs| ensures pvcs[i] != pvcs[j] { assert claims[i] != claims[j]; }
      }
    }
  }

  /** A data disk called "iso" has a PVC of its own kind, which a per-VM boot ISO then mounts as well. */
  lemma ISODiskSharesClaim(spec: MachineSpec, vmName: string)
    requires BootsFromISO(spec) && spec.disks == [DiskSpec("root", true, ""), DiskSpec("iso", false, "")]
    ensures Distinct(PvcNames(vmName, spec.disks)) && !Distinct(ClaimNames(spec, vmName, false))
    ensures ClaimNames(spec, vmName, false)[1] == ClaimNames(spec, vmName, false)[2] == vmName + "-iso"
  {
    assert HasISODisk(spec.disks) by { assert !spec.disks[1].boot && spec.disks[1].name == "iso"; }
    PvcNamesDistinctIff(vmName, spec.disks);
    ClaimsDistinctIff(spec, vmName, false);
    assert vmName + "-" + "iso" == vmName + "-iso";
  }

  predicate GivenNamesDiffer(disks: seq<DiskSpec>) {
    && (forall i, j :: 0 <= i < j < |disks| && disks[i].name != "" ==> disks[i].name != disks[j].name)
    && (forall i, j :: 0 <= i < |disks| && 0 <= j < |disks| && disks[i].name != "" && disks[j].name == ""
          ==> disks[i].name != GeneratedDiskName(j))
  }

  lemma GeneratedDiskNameInjective(i: nat, j: nat)
    requires GeneratedDiskName(i) == GeneratedDiskName(j)
    ensures i == j
  {
    if i > 0 && j > 0 { GeneratedSuffixInjective(i, j); }
    assert DEFAULT_DISK_NAME[0] == 'r';
  }

  function NamesOf(disks: seq<Disk>): seq<string> {
    seq(|disks|, i requires 0 <= i < |disks| => disks[i].name)
  }

  /** After the ISO and cloud-init additions disks and volumes still pair by name, in order. */
  lemma DisksPairWithVolumes(spec: MachineSpec, vmName: string, shared: bool, ci: Option<CloudInitBundle>)
    ensures var disks, volumes := AllDisks(spec, ci), AllVolumes(spec, vmName, shared, ci);
            |disks| == |volumes| && forall i :: 0 <= i < |disks| ==> disks[i].name == volumes[i].name
    ensures forall i :: 0 <= i < |PvcNames(vmName, spec.disks)| ==>
              i < |AllVolumes(spec, vmName, shared, ci)|
              && AllVolumes(spec, vmName, shared, ci)[i].source == PVCSource(PvcNames(vmName, spec.disks)[i])
  {
    var data := DataVolumes(spec.disks, PvcNames(vmName, spec.disks));
    assert |data| == |DataDisks(spec.disks)| == |PvcNames(vmName, spec.disks)|;
    assert AllVolumes(spec, vmName, shared, ci)[..|data|] == data;
    assert AllDisks(spec, ci)[..|data|] == DataDisks(spec.disks);
    assert forall i :: 0 <= i < |data| ==> DataDisks(spec.disks)[i].name == data[i].name;
  }

  lemma DataDiskNamesDistinctIff(disks: seq<DiskSpec>)
    ensures Distinct(NamesOf(DataDisks(disks))) <==> GivenNamesDiffer(disks)
  {
    var names := NamesOf(DataDisks(disks));
    assert forall i :: 0 <= i < |disks| ==> names[i] == DiskName(disks[i], i);
    if GivenNamesDiffer(disks) {
      forall i, j | 0 <= i < j < |names| ensures names[i] != names[j] {
        if disks[i].name == "" && disks[j].name == "" && names[i] == names[j] {
          GeneratedDiskNameInjective(i, j);
        }
      }
    }
    if Distinct(names) && disks != [] {
      forall i, j | 0 <= i < |disks| && 0 <= j < |disks| && disks[i].name != "" && disks[j].name == ""
        ensures disks[i].name != GeneratedDiskName(j)
      {
        if i < j { assert names[i] != names[j]; } else { assert names[j] != names[i]; }
      }
    }
  }

  /** Disk names of a whole VM are distinct when the given ones differ and avoid the two generated at the end. */
  lemma DiskNamesDistinct(spec: MachineSpec, ci: Option<CloudInitBundle>)
    requires GivenNamesDiffer(spec.disks) && AvoidsGeneratedNames(spec.disks)
    ensures Distinct(NamesOf(AllDisks(spec, ci)))
  {
    DataDiskNamesDistinctIff(spec.disks);
    var data := DataDisks(spec.disks);
    var names := NamesOf(AllDisks(spec, ci));
    assert names[..|data|] == NamesOf(data);
    forall i | 0 <= i < |data| ensures data[i].name != CDROM_VOLUME_NAME && data[i].name != CLOUD_INIT_DISK_NAME {
      GeneratedNameIsPlain(i);
      assert spec.disks != [] ==> data[i].name == DiskName(spec.disks[i], i);
    }
    forall i, j | 0 <= i < j < |names| ensures names[i] != names[j] {
      if j < |data| { assert names[i] == NamesOf(data)[i] && names[j] == NamesOf(data)[j]; }
    }
  }

  lemma GeneratedNameIsPlain(i: nat)
    ensures GeneratedDiskName(i) != CDROM_VOLUME_NAME && GeneratedDiskName(i) != CLOUD_INIT_DISK_NAME
  {
    assert GeneratedDiskName(i)[0] in {'r', 'd'};
    assert CDROM_VOLUME_NAME[0] == 'c' && CLOUD_INIT_DISK_NAME[0] == 'c';
  }

  function BootOrders(spec: MachineSpec, ci: Option<CloudInitBundle>): seq<Option<nat>> {
    var disks := AllDisks(spec, ci);
    seq(|disks|, i requires 0 <= i < |disks| => disks[i].bootOrder) + [NICBootOrder(spec)]
  }

  /** Boot orders of disks and network interface never repeat, exactly when at most one disk is the boot disk. */
  lemma BootOrdersDistinctIff(spec: MachineSpec, ci: Option<CloudInitBundle>)
    ensures (forall i, j :: 0 <= i < j < |BootOrders(spec, ci)| && BootOrders(spec, ci)[i].Some?
               ==> BootOrders(spec, ci)[i] != BootOrders(spec, ci)[j])
            <==> AtMostOneBoot(spec.disks)
  {
    var orders := BootOrders(spec, ci);
    var n := |DataDisks(spec.disks)|;
    assert forall i :: 0 <= i < |spec.disks| ==> orders[i] == if spec.disks[i].boot then Some(1) else None;
    assert spec.disks == [] ==> n == 1 && orders[0] == Some(1);
    assert forall i, j :: n <= i < j < |orders| && orders[i].Some? ==> orders[i] != orders[j];
    assert forall i :: n <= i < |orders| && orders[i].Some? ==> orders[i] == Some(2);
    if !AtMostOneBoot(spec.disks) {
      var i, j :| 0 <= i < j < |spec.disks| && spec.disks[i].boot && spec.disks[j].boot;
      assert orders[i] == orders[j] == Some(1);
    }
  }

  /** The boot disk, or the only disk there is by default, boots before the CDROM and the network. */
  lemma BootDiskBootsFirst(spec: MachineSpec, ci: Option<CloudInitBundle>, i: nat)
    requires if spec.disks == [] then i == 0 else i < |spec.disks| && spec.disks[i].boot
    requires AtMostOneBoot(spec.disks)
    ensures i < |BootOrders(spec, ci)| && BootOrders(spec, ci)[i].Some?
    ensures forall j :: 0 <= j < |BootOrders(spec, ci)| && j != i && BootOrders(spec, ci)[j].Some? ==>
              BootOrders(spec, ci)[i].value < BootOrders(spec, ci)[j].value
    ensures NICBootOrder(spec).Some? <==> spec.os.imageID == ""
  {
    var orders := BootOrders(spec, ci);
    var n := |DataDisks(spec.disks)|;
    assert forall j :: 0 <= j < |spec.disks| ==> orders[j] == if spec.disks[j].boot then Some(1) else None;
    assert forall j :: n <= j < |orders| && orders[j].Some? ==> orders[j] == Some(2);
  }

  /** A CDROM is attached exactly to a Machine that asks to boot from a DataVolume and names an image. */
  lemma CdromIffBootsFromISO(spec: MachineSpec, vmName: string, shared: bool, ci: Option<CloudInitBundle>)
    requires AvoidsGeneratedNames(spec.disks)
    ensures (exists d :: d in AllDisks(spec, ci) && d.name == "cdrom-iso") <==> spec.bootFromDataVolume && spec.os.imageID != ""
    ensures forall d :: d in AllDisks(spec, ci) && d.name == "cdrom-iso" ==> d.device.CDRomTarget?
    ensures forall v :: v in AllVolumes(spec, vmName, shared, ci) && v.name == "cdrom-iso" ==>
              v.source == if shared then PVCSource(IsoNames.SharedISOResourceName(spec.os)) else DataVolumeSource(vmName + "-iso")
  {
    var data := DataDisks(spec.disks);
    var volumes := DataVolumes(spec.disks, PvcNames(vmName, spec.disks));
    forall i | 0 <= i < |data| ensures data[i].name != "cdrom-iso" && volumes[i].name == data[i].name {
      GeneratedNameIsPlain(i);
    }
    if BootsFromISO(spec) { assert ISODisk in AllDisks(spec, ci); }
    hide IsoNames.SharedISOResourceName, PvcNames;
  }
}
