# A verified model of the KubeVirt Machine operator

The operator reconciles `Machine` objects of a supervisor cluster into KubeVirt virtual machines on several remote
clusters. Every pass is a sequence of API calls, any of which may fail; between passes imports finish, VMIs start and
stop, terminating objects vanish, and users create and delete Machines. The project models those passes call by call,
and proves what they keep over whole runs, what failure-free passes reach, and what the data transformations on the
way to a VM preserve. `dafny verify dfyconfig.toml` checks all of it.

## How the model is built

**Fleet.** `World` is the supervisor API server and all remote clusters as one value; `Effect` is one write call and
`Apply` what the API server does with it (delete removes an object, or marks it terminating when a finalizer holds
it; an update of a Machine needs the current resourceVersion). `Fleet.Legal` says which writes are allowed in which
state, `Fleet.Event` adds what the environment may do, and `Fleet.Inv` is the invariant. `Apis.Api` is the client a
pass holds: it takes any schedule of outcomes (delivered, rejected, or applied with the reply lost), and its `Write`
demands `Legal` in the state where the call is made. All reconcile code is methods on that client, written in the
source's order of calls, so each contract covers a pass that dies at any call, and an empty schedule is a
failure-free pass. `Progress.PassIsRun` and `RunsCompose` turn the recorded calls into runs, to which the theorems of
`Runs` apply.

**Call-level concurrency.** `ClientCache` (RWMutex with double-checked locking), `Races` (get, then create) and
`StatusWriter` (get, compare, conditional update, retry) are separate models, because there the code is written to
survive interleaving: any number of threads, callers or foreign writers.

**Data.** `CloudInit`, `IsoNames`, `VmSpec` and `StatusIPs` model the printers, parsers and list assembly. The loops
are methods proved against specification functions, and the properties are proved of those functions. What cidata a
VM gets is a function of the stored objects (`CloudInitSources`), which `CloudInitResolver` reads call by call.

## Assumptions

* For the fleet results passes do not overlap each other or an environment move (MAX_CONCURRENT_RECONCILES = 1), but
  each may stop at any call. A Machine's placement is named by its KubevirtConfig, which stands for the cluster.
* Users do not edit the operator's finalizer, nor a placement annotation that is set; they may set one that is not.
  Disk names avoid `cdrom-iso` and `cloudinitdisk`, the device names the operator generates itself.
* MANAGED_BY is not empty; MANAGED_BY and SHARED_BOOT_ISO are constants of a run.
* NADs and DataVolumes carry no finalizers. VMs, PVCs and NetworkConfigurations may.
* Others may delete VMs and PVCs, write allocation results, and change Secrets, ConfigMaps, NetworkNamespaces and
  KubevirtConfigs. Nobody else deletes NADs, DataVolumes or a NetworkConfiguration whose Machine exists, changes a
  NetworkConfiguration's interfaces or a VM's template, or puts the operator's labels on an object. An import that
  succeeded stays so.
* The client cache may gain any client that can be built and lose any at any time (`Fleet.CacheMoves`); `ClientCache`
  has the details.
* Resource sizes, StorageClass look-ups and the MAC generator enter each pass as `Prereqs`; of the generator only "not
  empty" is assumed. The path `url.Parse` finds, and what base64, `net.ParseCIDR` and `net.ParseIP` make of a text,
  are data. Case folding is that of ASCII.

## Findings

* A deleting Machine is released exactly when its NetworkConfiguration allows it and either a config is named
  (annotation, default, or the only one) and a client for it can be had, or the search finds a VM nothing holds
  (`Progress.DeleteUntilReleased`, `StuckStaysStuck`). Stuck for good: a Machine deleted before it was placed, with
  several configs and no VM (`NeverPlacedKeepsItsFinalizer`); one whose KubevirtConfig is gone (`UnreachableIsStuck`);
  one whose only VM, never the operator's own, is held (`UnplacedDeletionLosesItsCluster`).
* A data disk called `iso` has the PVC `<vm>-iso`, the name of the per-VM boot ISO: a VM that boots from its own ISO
  mounts it twice (`VmSpec.ISODiskSharesClaim`), and the ISO cleanup of a live Machine, which never looks at the boot
  source, deletes it (`Cdrom.HandleISOCleanup`). `VmSpec.ClaimsDistinctIff` is the exact condition.
* A first, non-boot disk without a name gets the PVC suffix `disk0`, so it shares a PVC with a disk the user called
  `disk0`, although the two device names differ (`VmSpec.UnnamedFirstDiskCanCollide`). `PvcNamesDistinctIff` is the
  exact condition.
* One interface without a MAC on a NetworkConfiguration, other than the one about to be given its MAC, keeps a Machine
  with synthesized network-config waiting whatever is allocated (`CloudInitSources.AllocationCanCompleteIff`,
  `CanBecomeAvailableIff`).
* Cloud-init fields other than the MAC are printed unquoted, so a newline in one changes what the text says
  (`CloudInit.NewlineSplitsNameserver`). `RenderedParses` is the exact condition.
* The comment on `nadNameFor` says untagged bridges share one NAD name, but VLAN 0 with static allocation yields
  `vlan0`; only negative ids give `bridge-br0` (internal/machine/network/network_manager.go:116-123). The model
  follows the code.

## Model

| member | source | states |
|---|---|---|
| Runs.NoLeaks | controllers/v1alpha1/machine_controller.go:134-157 | in every reachable state, whatever call a pass died at, an operator-created VM, or a non-terminating PVC labelled for Machine (ns, name), on cluster c implies that the Machine exists, holds the finalizer and is placed on c |
| Runs.FinalizerGuards | controllers/v1alpha1/machine_controller.go:439-487 | a step that removes the finalizer (or the Machine with it) happens only on a deleting Machine with no operator-created VM on any cluster, every labelled PVC gone or terminating, and the NetworkConfiguration gone or terminating |
| Runs.StickyPlacement | pkg/clients/kubevirt_client_manager.go:219-301 | however the default and the config list change in a run, all VMs created for one Machine are created on one cluster |
| Runs.OneClusterAtATime | controllers/v1alpha1/machine_controller.go:134-157 | at no reachable state do two clusters hold operator-created VMs of one Machine |
| Runs.PlacementSticks | controllers/v1alpha1/machine_controller.go:134-157 | a set placement never changes while the Machine exists |
| Runs.NetworksStay | internal/machine/network/network_manager.go:316-558 | in every reachable state a non-terminating VM of a Machine that is not being deleted finds each of its Multus NADs, whichever of the three cleanup routines ran, one of them before a VM delete |
| Runs.MountedISOsStay | internal/machine/vm/shared_iso.go:345-427 | in every reachable state each shared claim that a VM template or a running VMI mounts as CDROM has a DataVolume in phase Succeeded, also for a VMI whose template was stripped after it started |
| Runs.ISODeletedOnlyDetached | internal/machine/vm/cdrom_manager.go:125-190 | in every run a per-VM ISO DataVolume is deleted only in a state where its VM no longer names the CDROM in disks, volumes or templates; the PVC of that name likewise, or as a labelled PVC of a Machine being deleted |
| Runs.LivePVCsStay | internal/machine/vm/cdrom_manager.go:168-184 | the operator deletes a PVC that is not labelled for a deleting Machine only outside shared mode, by the name `<vm>-iso`, with that VM detached |
| Runs.NewVMsFindWhatTheyMount | controllers/v1alpha1/machine_controller.go:339-377 | in every run a VM is created only in an existing namespace, with every PVC it mounts there (the shared boot ISO's comes with its imported DataVolume) and a template of its own for every DataVolume it mounts |
| Runs.VMsCarryStoredMacs | internal/machine/vm/vm_manager.go:211-245 | every interface of an operator-created VM carries the MAC its NetworkConfiguration resolves that interface name to |
| Runs.StoredMacsStay | internal/machine/vm/network_config.go:143-166 | a NetworkConfiguration that stays resolves an interface name to the first MAC it ever stored for it, over any run |
| Runs.SynthesizedConfigNamesTheVMsMac | internal/machine/vm/vm_manager.go:211-245 | whenever a VM is created for a Machine with synthesized network-config, the VM holds the rendered text, and for each interface the first stanza of that name carries the MAC of that interface in lower case; reading the text back gives the stanzas exactly when none of the unquoted strings holds a newline |
| Runs.RunKeepsInv | controllers/v1alpha1/machine_controller.go:100-207 | the whole invariant (no leaks, NADs present, ISOs imported, MACs agree) holds in every state of every run |
| Fleet.LegalKeepsInv | controllers/v1alpha1/machine_controller.go:100-207 | each write the protocol allows keeps the invariant |
| Fleet.EventKeepsInv | controllers/v1alpha1/machine_controller.go:100-207 | each environment move keeps it: imports, VMI start (a copy of the template), stop and restart, VMs and PVCs deleted by others, vanishing objects, user edits and deletions of Machines, changes of configs and networks |
| Progress.PassIsRun | controllers/v1alpha1/machine_controller.go:100-207 | the states a pass went through, under any schedule of failures, form a run of allowed writes |
| Progress.RunsCompose | controllers/v1alpha1/machine_controller.go:100-207 | runs ending and beginning in one state join into a run, so passes and environment moves may follow each other in any order |
| Apis.Api.Write | controllers/v1alpha1/machine_controller.go:295-315 | one write call under any outcome: nothing happened, or exactly the API server's effect happened and is recorded; the reply says which unless it was lost |
| Controller.Reconcile | controllers/v1alpha1/machine_controller.go:100-207 | one pass under any failures touches no other Machine, creates nothing for a deleting Machine, adopts but never creates under an ambiguous placement, loses nothing persisted when it stops or waits, keeps the PVCs of a live Machine's disks unless a data disk is called iso, leaves a deletion that cannot end as it is, and writes nothing for a cluster Machine without its labels; failure-free it makes creation or deletion progress, and if it completes the VM exists, its CDROM is off once the Machine asks for that and the agent is connected, and no ISO is left to clean up |
| Controller.EnsureNamespaceExists | controllers/v1alpha1/machine_controller.go:210-250 | adds at most that namespace, which is there on success |
| Controller.EnsureVirtualMachine | controllers/v1alpha1/machine_controller.go:324-390 | an existing VM causes no write; otherwise the pass only adds (ISO, PVCs, NAD, NetworkConfiguration, VM), a VM only once the PVCs of all its disks exist, and failure-free it lowers the creation rank or waits for an import, or, with PVCs and MAC in place, for an address or a cloud-init source |
| Controller.Place | controllers/v1alpha1/machine_controller.go:118-157 | writes nothing but the namespace and the Machine; on success the namespace exists and the Machine is annotated with the cluster; with no annotation, no default and several configs that cluster already has the VM; failure-free it succeeds exactly when a placement can be decided and reached |
| Controller.MaintainVM | controllers/v1alpha1/machine_controller.go:164-181 | creates nothing and keeps the VM; failure-free the CDROM is off once the Machine asks for that and the agent is connected, and a NetworkConfiguration of the operator's own has the provider its NetworkNamespace declares |
| Controller.AddFinalizer | controllers/v1alpha1/machine_controller.go:303-315 | sets only the finalizer, and on success it is stored |
| Controller.PersistsTransitive | controllers/v1alpha1/machine_controller.go:324-390 | what successive interrupted steps leave standing stays standing: finalizer, placement and every created object |
| Progress.ProvisionUntilCreated | controllers/v1alpha1/machine_controller.go:303-381 | failure-free passes, each with its own generated MAC, end with finalizer, placement and VM in place, when in between imports complete, missing cloud-init sources appear and addresses are allocated for the MACs stored by then; the measure is finalizer, placement, ISO, its import, the disks' PVCs, stored MAC, sources and address, VM |
| Progress.ProvisioningGoesOn | controllers/v1alpha1/machine_controller.go:324-381 | whatever an interrupted or waiting pass leaves, the next one, with whatever MAC generator it is given, can go on from |
| Progress.SupplyEndsWait | internal/machine/vm/vm_manager.go:233-241 | the MAC is stored before its address is waited for, so from a wait, whatever others supply, only the VM is missing exactly when cloud-init has what it needs |
| VmManager.StoredMacIsCompletable | internal/machine/vm/vm_manager.go:223-241 | once the MAC is stored, nothing but sources and addresses can keep cloud-init waiting |
| CloudInitSources.CanBecomeAvailableIff | internal/machine/vm/cloudinit.go:64-163 | without the operator, others can make cloud-init available exactly when the payloads decode, the network segment is provisioned and every interface of the NetworkConfiguration has a MAC |
| CloudInitSources.AllocationCanCompleteIff | internal/machine/vm/cloudinit.go:165-201 | some allocation result renders exactly when every interface has a MAC: one without keeps the Machine waiting whatever is allocated |
| CloudInitSources.ResolvedAgrees | internal/machine/vm/cloudinit.go:119-163 | a VM that carries stored MACs and the resolved cidata agrees with its network-config on every interface |
| CloudInitResolver.ResolveCloudInit | internal/machine/vm/cloudinit.go:64-126 | what is stored decides alone: user data before network data, the first source set, waiting for a missing source or address, unless a read fails |
| CloudInitResolver.SynthesizeNetworkDataFromStaticIP | internal/machine/vm/cloudinit.go:129-161 | nothing without a static NetworkNamespace, a wait without a NetworkConfiguration, else what the renderer makes of its interfaces and allocation result |
| Progress.DeleteUntilReleased | controllers/v1alpha1/machine_controller.go:439-538 | failure-free passes over a deleting Machine, with terminating VMs going away between them, remove the finalizer exactly when the NetworkConfiguration allows it and either a config is named and reachable or the search can find an unheld VM; no operator-created VM is left then |
| Progress.DeletionGoesOn | controllers/v1alpha1/machine_controller.go:439-538 | after a pass that left the found VM terminating, the Machine can still be released once that VM is gone, and fewer VMs are left |
| Progress.StuckStaysStuck | controllers/v1alpha1/machine_controller.go:439-487 | when that condition fails, no number of passes, failing or not, and no VM going away removes the finalizer |
| Progress.NeverPlacedIsStuck | pkg/clients/kubevirt_client_manager.go:219-301 | a Machine deleted before it was placed, with no default, not exactly one config and no VM anywhere, is such a case |
| Progress.UnreachableIsStuck | pkg/clients/kubevirt_client_manager.go:68-117 | so is one whose named KubevirtConfig is gone or yields no client, with none cached |
| Progress.NeverPlacedKeepsItsFinalizer | controllers/v1alpha1/machine_controller.go:439-460 | a run of the deletion flow on a Machine that was never placed ends with everything, the finalizer included, as it was |
| Progress.UnplacedOwnsNothing | pkg/clients/kubevirt_client_manager.go:274-301 | a VM found for a Machine without a placement is never one the operator created |
| Progress.ClusterSurvivesItsVMIff | pkg/clients/kubevirt_client_manager.go:219-301 | once the VM is gone a Machine that resolved still resolves to its cluster exactly when an annotation, a default or a single config names it |
| Progress.UnplacedDeletionLosesItsCluster | pkg/clients/kubevirt_client_manager.go:219-301 | two configs, none named, a held VM on one: the deletion finds its cluster, is stuck from the start, and finds none once the VM is gone |
| Deletion.HandleDeletion | controllers/v1alpha1/machine_controller.go:439-487 | creates no remote object under any failures; failure-free with a resolvable, reachable cluster and matching NetworkConfiguration it releases the Machine or leaves its VM terminating; without a resolvable cluster it changes nothing; a stuck Machine stays stuck |
| Deletion.StuckStays | controllers/v1alpha1/machine_controller.go:439-487 | nothing that leaves configs, NetworkConfiguration and what holds the VMs alone gets a stuck deletion unstuck |
| Deletion.CanReleaseIsPlaced | pkg/clients/kubevirt_client_manager.go:219-301 | the release condition implies that the cluster resolves |
| Deletion.CleanupRemoteResources | controllers/v1alpha1/machine_controller.go:489-538 | success means VM gone and every labelled PVC gone or terminating; failure-free it waits exactly while the VM still exists, and ends with no orphaned managed NAD and no unreferenced shared ISO in the namespace |
| Deletion.DeleteVirtualMachine | controllers/v1alpha1/machine_controller.go:626-674 | no other VM changes; the VM is left, stopped, stopped and terminating, or removed, and failure-free stays exactly if something holds it |
| Deletion.ResolveNADNameForDeletion | controllers/v1alpha1/machine_controller.go:540-574 | the name recorded on the Machine wins, else the VM's first Multus network, which failure-free is recorded while the VM still tells |
| Deletion.FirstMultus | controllers/v1alpha1/machine_controller.go:705-721 | the first Multus network with a name, and none only when there is none |
| Deletion.BeforeVMDeletion | controllers/v1alpha1/machine_controller.go:576-587 | every labelled PVC is gone or going and, failure-free, the NAD is gone when only the VM being deleted uses it |
| Deletion.FinalizeNADCleanup | controllers/v1alpha1/machine_controller.go:600-624 | failure-free, the NAD named on the Machine is gone if nobody uses it, no managed NAD of the namespace is unused by a live VM, and the annotation is cleared |
| Deletion.ReleasedWhenGone | controllers/v1alpha1/machine_controller.go:439-487 | in a state with the invariant, cleaning up the one placed cluster and the NetworkConfiguration releases the Machine everywhere |
| Deletion.RemoveMachineFinalizer | controllers/v1alpha1/machine_controller.go:676-702 | may be called only with nothing left; drops the finalizer and changes nothing else |
| Placement.GetOrCreateClientFromMachine | pkg/clients/kubevirt_client_manager.go:219-271 | annotation, then default, then the only config, then a cluster that has the VM, and only if a client for it can be had; failure-free it succeeds exactly when a placement can be decided and reached; asks for an annotation exactly when there was none |
| Placement.GetClientForConfig | pkg/clients/kubevirt_client_manager.go:68-157 | failure-free, a client is there exactly when it is cached, or the KubevirtConfig exists and its kubeconfig secret yields one |
| Placement.FindVMInClusters | pkg/clients/kubevirt_client_manager.go:274-301 | what it finds is a listed config whose reachable cluster has the VM; failure-free it is the first such |
| Storage.CreatePVCsFromDiskSpecs | internal/machine/storage/storage_manager.go:137-192 | every PVC added is labelled for this Machine under one of its names; on success the names are one per disk in order and all exist; existing PVCs are untouched |
| Storage.CreateSinglePVC | internal/machine/storage/storage_manager.go:196-270 | adds at most the labelled PVC of that name, never replaces one |
| Storage.DeleteAssociatedPVCs | internal/machine/storage/storage_manager.go:273-322 | only PVCs labelled for the Machine go; on success each of them is gone or terminating |
| NetworkManager.GetOrCreateNetworkConfiguration | internal/machine/network/network_manager.go:54-114 | the network returned is the one the NetworkNamespace calls for, its NAD exists, NADs are only added, each named for its own VLAN; failure-free it fails exactly when the namespace is not ready or not found by name |
| NetworkManager.NetworkOfNamespace | internal/machine/network/network_manager.go:68-114 | in terms of the NetworkNamespace alone: a positive VLAN, or static allocation, means the bridge NAD `vlan<id>` (`bridge-br0` for a negative id), everything else the pod network |
| NetworkManager.EnsureNetworkAttachmentDefinition | internal/machine/network/network_manager.go:189-302 | adds at most that NAD with that VLAN, never replaces one; on success it exists |
| NetworkManager.NADNamesDiffer | internal/machine/network/network_manager.go:116-123 | the NAD names of two VLANs are equal only if the VLANs are |
| NetworkManager.CleanupNADIfUnusedByOtherVMs | internal/machine/network/network_manager.go:408-457 | leaves everything alone when another live VM uses the NAD; failure-free it deletes it when only the VM being deleted does |
| NetworkManager.CleanupNetworkAttachmentDefinition | internal/machine/network/network_manager.go:316-403 | leaves everything alone when a live VM uses the NAD; failure-free it deletes it otherwise |
| NetworkManager.CleanupOrphanedNADs | internal/machine/network/network_manager.go:478-558 | a failure-free sweep deletes exactly the managed NADs of the namespace no live VM uses; no sweep deletes another |
| NetworkManager.InUse | internal/machine/network/network_manager.go:345-385 | the scan with its early exit finds a user exactly when there is one, not counting terminating VMs and the excepted one |
| NetworkManager.IsVMUsingNAD | internal/machine/network/network_manager.go:460-475 | true exactly when some network of the template is a Multus network of that name |
| SharedISO.EnsureSharedISODataVolume | internal/machine/vm/shared_iso.go:212-254 | reports ready only for a Succeeded import, adds at most the one pending volume, never replaces one; failure-free the outcome is determined by the state found |
| SharedISO.GCOrphanedSharedISOs | internal/machine/vm/shared_iso.go:345-387 | a failure-free collection leaves exactly the labelled volumes still referenced; unlabelled, referenced and other-namespace volumes are never touched |
| SharedISO.ReferencedPVCClaimNames | internal/machine/vm/shared_iso.go:393-412 | a name is reported exactly when some VM template or VMI of the namespace claims it |
| SharedISO.AddReferencedClaimNames | internal/machine/vm/shared_iso.go:417-427 | adds exactly the claim names of PVC and DataVolume volumes |
| SharedISO.ListedNames | internal/machine/vm/shared_iso.go:393-412 | the names the two lists give are the names referenced in the namespace |
| Cdrom.StrippedIffNamed | internal/machine/vm/cdrom_manager.go:192-254 | stripping changes a VM exactly when it names the CDROM, leaves it not naming it, and is idempotent |
| Cdrom.StrippedKeepsTheRest | internal/machine/vm/cdrom_manager.go:192-254 | every other disk, volume and template stays as often as before, and stripping distributes over every cut of the lists, so order is kept |
| Cdrom.StripVM | internal/machine/vm/cdrom_manager.go:192-254 | the three filtering loops compute the stripped VM, and report a change exactly when the VM named the CDROM |
| Cdrom.RemoveCDROMFromVMSpec | internal/machine/vm/cdrom_manager.go:192-254 | only that VM changes and only by stripping; on success, also when nothing had to change, it does not name the CDROM |
| Cdrom.CleanupISOResources | internal/machine/vm/cdrom_manager.go:125-190 | at every step a per-VM ISO goes only after the VM is detached; with a shared ISO nothing is deleted; failure-free it succeeds from any state |
| Cdrom.HandleISOCleanup | controllers/v1alpha1/machine_controller.go:397-424 | without a request to remove the CDROM or a connected agent nothing is written; with both, one failure-free pass from any state, a stale cleaned-up mark with the CDROM still in the spec included, leaves a VM without a `cdrom-iso` volume and the mark set, and from there nothing is written any more; under any failures the PVCs of the disks are kept if no data disk is called iso, and a failure-free per-VM cleanup keeps live ones exactly then |
| NetworkConfig.ResolveOrGenerateMAC | internal/machine/vm/network_config.go:284-298 | a stored non-empty MAC of the interface wins over a generated one |
| NetworkConfig.PersistMacAddressesToNetworkConfiguration | internal/machine/vm/network_config.go:73-180 | the NetworkConfiguration is left, created with the one interface, or updated as wanted; every MAC it resolved before still resolves; on success the MAC is stored; a settled one is not written |
| NetworkConfig.StoredMacSticks | internal/machine/vm/network_config.go:143-166 | across any sequence of attempts, failed or persisted, on any interfaces, a stored MAC is what every later attempt resolves to, also with duplicate entries of which the first has no MAC |
| NetworkConfig.FirstPersistDecides | internal/machine/vm/network_config.go:284-298 | the first attempt that persists decides the MAC for all later ones |
| NetworkConfig.PersistedResolves | internal/machine/vm/network_config.go:143-166 | after persisting, the interface resolves to the MAC and every other interface as before |
| NetworkConfig.WantedIsSettled | internal/machine/vm/network_config.go:73-180 | persisting twice with the provider backfilled changes nothing the second time |
| NetworkConfig.OwnNCIsAccepted | internal/machine/vm/network_config.go:301-369 | what the operator creates or updates for a Machine its deletion accepts, exactly unless the status lists MACs without this one |
| NetworkConfig.EnsureNCProviderBackfilled | internal/machine/vm/network_config.go:228-258 | the object is left alone or gets exactly the provider backfilled, which failure-free happens |
| NetworkConfig.CleanupNetworkConfiguration | internal/machine/vm/network_config.go:301-369 | only deletes; refuses, changing nothing, exactly when the object is not this operator's, not this Machine's, or holds a MAC missing from a non-empty status |
| VmManager.CreateVirtualMachine | internal/machine/vm/vm_manager.go:181-274 | the only VM that can appear has the disks, volumes and boot orders of its spec, the network the NetworkNamespace calls for, and the MAC and cidata stored for it by then; failing or waiting loses nothing; failure-free with its prerequisites it stores the MAC, and succeeds exactly when cloud-init then has its sources and address |
| VmManager.NewVMIsLegal | internal/machine/vm/vm_manager.go:95-178 | the VM assembled from the prerequisites is one the protocol allows: NAD present, ISO imported, MAC stored, network-config naming that MAC |
| VmManager.NewVMMounts | internal/machine/vm/disk_builder.go:168-215 | a new VM mounts existing PVCs, the shared ISO, or a DataVolume it brings |
| VmManager.CdromClaimOf | internal/machine/vm/disk_builder.go:168-215 | the only CDROM claim of a new VM is the shared boot ISO of its operating system |
| VmManager.SettleMac | internal/machine/vm/vm_manager.go:211-231 | on success the MAC the VM will carry is the one now stored, which is the one stored before if there was one |
| VmSpec.PvcNamesDistinctIff | internal/machine/storage/storage_manager.go:153-192 | the PVC names of a Machine are distinct exactly when at most one disk boots and the given data-disk names differ from each other and from the generated suffixes of unnamed ones |
| VmSpec.UnnamedFirstDiskCanCollide | internal/machine/storage/storage_manager.go:153-192 | an unnamed first data disk and a disk named disk0 share a PVC while their devices differ |
| VmSpec.ClaimsDistinctIff | internal/machine/vm/disk_builder.go:168-215 | no two volumes of a VM share a claim exactly when the disks' PVCs differ and none is the boot ISO's: per VM, no data disk is called iso; shared, no PVC has the shared volume's name |
| VmSpec.ISOClaimIsDiskClaimIff | internal/machine/vm/cdrom_manager.go:64-69 | the name of the per-VM ISO is that of a disk's PVC exactly when a data disk is called iso |
| VmSpec.ISODiskSharesClaim | internal/machine/vm/disk_builder.go:168-215 | with a boot disk and a data disk called iso the disks' PVCs differ, yet the boot ISO mounts the second one |
| VmSpec.DisksPairWithVolumes | internal/machine/vm/disk_builder.go:53-135 | after the ISO and cloud-init additions disks and volumes pair by name in order, and the i-th volume mounts the i-th PVC name |
| VmSpec.BuildDisksAndVolumes | internal/machine/vm/disk_builder.go:53-135 | the loop yields one disk and one volume per spec, with PVC indexing in range |
| VmSpec.DataDiskNamesDistinctIff | internal/machine/vm/disk_builder.go:53-135 | data-disk names are distinct exactly when the given ones differ from each other and from the generated ones |
| VmSpec.DiskNamesDistinct | internal/machine/vm/cloudinit.go:311-328 | with the ISO and cloud-init disks added, all disk names of a VM are distinct |
| VmSpec.BootOrdersDistinctIff | internal/machine/vm/vm_manager.go:184-231 | boot orders over all disks and the network interface never repeat, exactly when at most one disk is the boot disk |
| VmSpec.BootDiskBootsFirst | internal/machine/vm/disk_builder.go:53-135 | the boot disk, or the default disk, boots before CDROM and network, and the network boots only without an image |
| VmSpec.CdromIffBootsFromISO | internal/machine/vm/vm_manager.go:184-190 | a CDROM is attached exactly when boot from a DataVolume is asked for and an image is named; it mounts the shared volume, or the per-VM one |
| VmSpec.DetermineBusType | internal/machine/vm/disk_builder.go:138-155 | sata and scsi get their bus, everything else virtio |
| Decimals.DecimalInjective | internal/machine/storage/storage_manager.go:153-192 | printing a number in decimal loses nothing |
| Decimals.DecimalReads | internal/machine/storage/storage_manager.go:153-192 | a printed number reads as that number, in digits without a leading zero |
| IsoNames.ParseInvertsPrint | internal/machine/vm/shared_iso.go:85-137 | from every path `base/version/variant-arch.tail` with a version-like segment, a dot-free variant (dashes allowed) and a known arch, the parser returns exactly version, variant and arch |
| IsoNames.ParseImageURL | internal/machine/vm/shared_iso.go:85-127 | the token-by-token parser equals cutting at the last dash before a known arch |
| IsoNames.Stem | internal/machine/vm/shared_iso.go:85-105 | stripping the seven known extensions in turn and then cutting at a dot equals cutting at the first dot, for every file name |
| IsoNames.StripKeepsStem | internal/machine/vm/shared_iso.go:85-105 | stripping any dotted extension leaves the part before the first dot |
| IsoNames.SanitizeDNS1123 | internal/machine/vm/shared_iso.go:184-205 | the builder loop with its lastDash flag equals map, collapse, trim |
| IsoNames.SanitizedIsClean | internal/machine/vm/shared_iso.go:184-205 | the result is not empty, over [a-z0-9.-], begins and ends alphanumeric and has no double dash |
| IsoNames.FixpointIffClean | internal/machine/vm/shared_iso.go:184-205 | a name is left alone exactly when it already is of that shape |
| IsoNames.SanitizeIdempotent | internal/machine/vm/shared_iso.go:184-205 | sanitising twice is sanitising once |
| IsoNames.SharedNameIsFixpoint | internal/machine/vm/shared_iso.go:145-180 | every shared-ISO name is a fixpoint of sanitising |
| IsoNames.SharedNameSpellsItsParts | internal/machine/vm/shared_iso.go:145-180 | with a distribution the name is `<distribution>-<version>-<variant>-<arch>` as soon as that is a clean name, set spec fields winning over what the URL says |
| IsoNames.UndistributedNameSpellsItsParts | internal/machine/vm/shared_iso.go:157-170 | without one the variant leads and is not repeated, or `bootiso` leads when there is no variant |
| IsoNames.SharedNameOfImage | internal/machine/vm/shared_iso.go:145-180 | from a conventional image path: what the spec leaves open is what the path says |
| IsoNames.VersionsHaveTheirOwnVolumes | internal/machine/vm/shared_iso.go:145-180 | two versions of one image never share a volume |
| IsoNames.VersionsLookLike | internal/machine/vm/shared_iso.go:128-138 | a version begins with a digit, or with v and a digit, and nothing else does |
| ClientCache.BuildsAreAccountedFor | pkg/clients/kubevirt_client_manager.go:68-92 | in every interleaving, whenever the write lock is free, successful builds of a name = removals of that name that found an entry + (1 if cached) |
| ClientCache.WriterExcludes | pkg/clients/kubevirt_client_manager.go:68-92 | while a thread holds the write lock no other thread holds either lock |
| ClientCache.FailedBuildsAreNotCached | pkg/clients/kubevirt_client_manager.go:68-92 | only what a successful build for that name returned is ever cached for it |
| ClientCache.ReturnedWasCached | pkg/clients/kubevirt_client_manager.go:68-92 | each client a call returns was the cached one of its name at a moment between the call's start and now |
| ClientCache.ErrorMeansOwnBuildFailed | pkg/clients/kubevirt_client_manager.go:73-92 | in every interleaving a call returns an error only if a build of its own failed: a client it built or found cached is never withheld |
| ClientCache.BuiltClientIsReturned | pkg/clients/kubevirt_client_manager.go:73-92 | once a call's build has succeeded, all it can still do is return that very client |
| ClientCache.InvalidationRemoves | pkg/clients/kubevirt_client_manager.go:171-182 | when an invalidation is over, each name it covers was absent from the cache at a moment inside it |
| ClientCache.OnlyInvalidationRemoves | pkg/clients/kubevirt_client_manager.go:171-182 | a cached client stays, and is never replaced, until an invalidation that covers its name |
| ClientCache.WarmCallsNeverLock | pkg/clients/kubevirt_client_manager.go:68-74 | while its name stays cached a call neither waits for nor takes the write lock |
| ClientCache.SomeThreadCanStep | pkg/clients/kubevirt_client_manager.go:68-92 | no deadlock, although an announced writer holds back new readers: while any call or invalidation is unfinished, some thread can step |
| ClientCache.StepsRunOut | pkg/clients/kubevirt_client_manager.go:68-92 | every call and invalidation ends after at most nine steps of its own: each brings it nearer, and no other thread takes it back |
| ClientCache.StepKeepsInv | pkg/clients/kubevirt_client_manager.go:171-182 | every step of every thread, the two invalidations included, keeps locks, accounting and witnesses consistent |
| ClientCache.CallStartsNow | pkg/clients/kubevirt_client_manager.go:68-92 | the recorded start of a call is the moment it began |
| Races.ExactlyOneCreate | internal/machine/vm/shared_iso.go:212-254 | among any number of interleaved callers, once one has succeeded the object exists, and exactly one Create landed if it was absent at first, none otherwise |
| Races.RaceIsNoError | controllers/v1alpha1/machine_controller.go:210-250 | a caller fails only through a fault of one of its own two calls, never by losing the race |
| Races.NeverReplaced | internal/machine/network/network_manager.go:189-302 | the object, once there, stays the same one, and a finished import stays finished |
| Races.ReadyMeansSucceeded | internal/machine/vm/shared_iso.go:212-254 | ready is reported only for an import that has Succeeded |
| Races.FoundIsReported | internal/machine/vm/shared_iso.go:219-230 | a caller that finds the object is ready exactly when its import has Succeeded, and creates nothing |
| Races.WaitFree | controllers/v1alpha1/machine_controller.go:210-250 | no caller waits for another: it is done after at most two steps of its own |
| StatusWriter.Try | internal/machine/status/status_manager.go:73-117 | one pass through the retry loop: at most one write lands, only over the version just read and only with what was wanted; a conflict means somebody wrote in between, a failure is a fault, and success leaves the caller holding what is stored |
| StatusWriter.UpdateMachineStatusWithDetails | internal/machine/status/status_manager.go:68-118 | under any foreign writes and faults: at most three attempts, at most one landed write, never over an unread version; on success the caller holds what is stored and that is what was wanted; without faults it fails only after three lost races; undisturbed it does exactly what QuietCall says |
| StatusWriter.WritesAreChanges | internal/machine/status/status_manager.go:86-101 | with no other writer the writes over any sequence of calls are as many as the adjacent wanted statuses that differ ignoring LastUpdated, and the last one wanted is stored |
| StatusWriter.RepeatIsFree | internal/machine/status/status_manager.go:120-131 | asking again for what is stored, also in the form handed back, writes nothing |
| StatusWriter.EqualIffStoredAlike | internal/machine/status/status_manager.go:126-131 | two statuses count as equal exactly when the server would store them alike but for the time: every field counts, nil and empty lists are one |
| StatusIPs.AddressesAreConserved | internal/machine/status/status_manager.go:385-478 | IPv4 and IPv6 lists together, and public and private lists together, are as multisets all valid addresses of interfaces with usable MACs; each version's list keeps the reported order |
| StatusIPs.ExtractNetworkInterfacesFromVMI | internal/machine/status/status_manager.go:437-478 | appends one entry per usable interface, in order, with its valid addresses |
| StatusIPs.MachineStatus.PopulateIPAddressesFromInterfaces | internal/machine/status/status_manager.go:385-410 | an address is public exactly when an interface with a name has it, private exactly when one without has it, in order; both versions are split in order |
| StatusIPs.FilterAddresses | internal/machine/status/status_manager.go:413-435 | keeps exactly the addresses of one version, in order |
| CloudInit.RenderNetworkConfigV1 | internal/machine/vm/cloudinit.go:165-201 | no interfaces render to nothing; otherwise it succeeds exactly when every interface has a stanza and then prints those; else the first interface without one decides between waiting and a CIDR error |
| CloudInit.StanzaExistsIff | internal/machine/vm/cloudinit.go:165-201 | an interface has a stanza exactly when its MAC is not empty and the last status entry matching it case-insensitively has an IPv4 address and, static block filled in, an IPv4 CIDR |
| CloudInit.RenderedParses | internal/machine/vm/cloudinit.go:165-252 | parsing the rendered text gives back every interface in order exactly when no string printed unquoted holds a newline; each has the name, the lower-case MAC, the first address, the mask with exactly the prefix's leading bits set, gateway and nameservers of the last status entry with its MAC, the static block filling gaps |
| CloudInit.OctetsAreTheMask | internal/machine/vm/cloudinit.go:254-264 | the four octets of a prefix make the 32-bit number 2^32 - 2^(32 - bits) (section 3.1 of RFC 4632) |
| CloudInit.StanzaLayout | internal/machine/vm/cloudinit.go:236-251 | the lines of an interface letter for letter |
| CloudInit.PlainQuotes | internal/machine/vm/cloudinit.go:237-239 | a MAC without control characters, quotes and backslashes is quoted as it stands |
| CloudInit.RoundTrip | internal/machine/vm/cloudinit.go:207-252 | for any stanzas, parsing what is printed gives them back exactly when no unquoted field holds a newline |
| CloudInit.NewlineSplitsNameserver | internal/machine/vm/cloudinit.go:246-251 | one nameserver that holds a newline and a dash reads as two |
| CloudInit.WriteStaticInterface | internal/machine/vm/cloudinit.go:207-252 | appends exactly the lines of the interface's stanza, without the MAC line when there is no MAC, or fails exactly when the effective CIDR is not IPv4 |
| CloudInit.IndexByMac | internal/machine/vm/cloudinit.go:177-184 | the map filled in place gives, per lower-case MAC, the last status entry with it, entries without MAC skipped |
| CloudInit.LastWithMacIsLast | internal/machine/vm/cloudinit.go:177-184 | the looked-up entry is the one after which none matches |
| CloudInit.NetmaskDeterminesPrefix | internal/machine/vm/cloudinit.go:254-264 | a printed netmask determines its prefix length (section 3.1 of RFC 4632) |
| CloudInit.UnquoteQuote | internal/machine/vm/cloudinit.go:236-238 | quoting a MAC loses nothing and leaves no newline |

## Left out

- Status writes inside a reconcile pass: they touch no field the fleet results depend on; `StatusWriter` models them on their own.
- Cached reads: the source's supervisor client may read from an informer cache; here a Get returns what is stored.
- Overlap of passes with each other or of an environment move with a pass: the collectors list and then delete, and the remote client of the VM manager is one shared field, so that is another theorem.
- NetworkConfig.UpdateNetworkConfiguration: does not model the resourceVersion check of the update; a conflict is one more way for the call to be rejected.
- CloudInit.RoundTrip: the parser reads the emitted shape, not YAML; what YAML makes of special characters inside a line is not modelled.
- VmSpec.PvcNamesDistinctIff: is about one Machine; across Machines `a` with disk `b` and `a-b` do share a PVC name, and a Machine `a-iso` has the PVC that `a` takes for its boot ISO.
- Storage.CreateSinglePVC: sizes, access modes and the block or file volume mode of a PVC are not modelled.
- The PVCs the DataVolume controller makes for a per-VM ISO, and DataVolume contents, sources and sizes.
- The short names of NetworkConfiguration specs, affinity, spread constraints, descheduler annotation and CPU features: plain field setting.
- Machine phases and error events, and the status mode that takes addresses from the NetworkConfiguration: single-branch facts.
- Health checks, kubeconfig parsing, HTTP sizing of images, start-up wiring and MachineClass look-ups: I/O.
