/** The VirtualMachine manifest builder: a pure function from the seven
    creation options to a KubeVirt VirtualMachine. The VM boots from a disk
    cloned from an image volume, with a bridged interface and cloud-init
    network and user data that give it the reserved address, its gateway and
    one SSH key. */
module Machines {

  import opened Wrappers
  import opened KubernetesTypes
  import Text

  datatype BuildMachineOptions = BuildMachineOptions(
    name: string,
    size: string,
    rootDiskSize: int,
    sourcePVCName: string,
    ipv4Address: string,
    ipv4Gateway: string,
    sshKey: string)

  const VMLabel := "kubevirt.io/vm"
  const AddressAnnotation := "monsoon.ianunruh.com/ipv4Address"
  /** Namespace holding the image volumes that root disks are cloned from. */
  const ImageNamespace := "vm-images"

  /** `ipv4Address.split("/")[0]`: the address with its prefix length removed. */
  function AddressWithoutLength(ipv4Address: string): (a: string)
    ensures Text.IsFirstField(a, ipv4Address, '/')
  {
    Text.SplitFirstField(ipv4Address, '/');
    Text.Split(ipv4Address, '/')[0]
  }

  /** For a CIDR `a/len` the annotation is `a`; a string without `/` is kept whole. */
  lemma AddressOfCidr(a: string, len: string)
    requires '/' !in a
    ensures AddressWithoutLength(a + "/" + len) == a
    ensures AddressWithoutLength(a) == a
  {
    var s := a + "/" + len;
    assert Text.IsFirstField(a, s, '/') by {
      assert s[|a|] == '/';
    }
    Text.FirstFieldUnique(a, AddressWithoutLength(s), s, '/');
    Text.FirstFieldUnique(a, AddressWithoutLength(a), a, '/');
  }

  /** The cloud-init network configuration (netplan version 2), line by line. */
  function NetworkDataLines(ipv4Address: string, ipv4Gateway: string): seq<string>
  {
    [ "version: 2",
      "ethernets:",
      "  enp1s0:",
      "    addresses:",
      "      - " + ipv4Address,
      "    routes:",
      "      - to: default",
      "        via: " + ipv4Gateway,
      "    nameservers:",
      "      addresses:",
      "        - 1.1.1.1",
      "        - 1.0.0.1" ]
  }

  function NetworkData(ipv4Address: string, ipv4Gateway: string): string
  {
    Text.Join(NetworkDataLines(ipv4Address, ipv4Gateway), '\n')
  }

  /** The cloud-init user data, line by line. */
  function UserDataLines(sshKey: string): seq<string>
  {
    [ "#cloud-config",
      "ssh_authorized_keys:",
      "  - " + sshKey ]
  }

  function UserData(sshKey: string): string
  {
    Text.Join(UserDataLines(sshKey), '\n')
  }

  /** The storage request of the root disk, in gibibytes. */
  function StorageRequest(rootDiskSize: int): string
  {
    Text.IntToString(rootDiskSize) + "Gi"
  }

  /** Reads a storage request written as `<n>Gi`. */
  function ParseStorageRequest(storage: string): Option<int>
  {
    if |storage| >= 2 && storage[|storage| - 2..] == "Gi" then
      match Text.ParseInt(storage[..|storage| - 2])
      case Some(n) => Some(n)
      case None => None
    else None
  }

  lemma StorageRequestRoundTrip(rootDiskSize: int)
    ensures ParseStorageRequest(StorageRequest(rootDiskSize)) == Some(rootDiskSize)
  {
    var t := Text.IntToString(rootDiskSize);
    var s := StorageRequest(rootDiskSize);
    assert s[..|s| - 2] == t;
    assert s[|s| - 2..] == "Gi";
    Text.IntToStringRoundTrip(rootDiskSize);
  }

  /** Read line by line, the network data is exactly the template's twelve
      lines: the address as the only entry under `addresses`, the gateway as
      the `via` of the default route, and the two fixed nameservers. */
  lemma NetworkDataReadBack(ipv4Address: string, ipv4Gateway: string)
    requires '\n' !in ipv4Address && '\n' !in ipv4Gateway
    ensures Text.Split(NetworkData(ipv4Address, ipv4Gateway), '\n') == NetworkDataLines(ipv4Address, ipv4Gateway)
    ensures var lines := Text.Split(NetworkData(ipv4Address, ipv4Gateway), '\n');
      && |lines| == 12
      && lines[3] == "    addresses:" && lines[4] == "      - " + ipv4Address
      && lines[6] == "      - to: default" && lines[7] == "        via: " + ipv4Gateway
      && lines[9..] == ["      addresses:", "        - 1.1.1.1", "        - 1.0.0.1"]
  {
    Text.SplitJoin(NetworkDataLines(ipv4Address, ipv4Gateway), '\n');
  }

  /** Read line by line, the user data is the cloud-config header and a list
      of authorized keys holding exactly the one key. */
  lemma UserDataReadBack(sshKey: string)
    requires '\n' !in sshKey
    ensures Text.Split(UserData(sshKey), '\n') == ["#cloud-config", "ssh_authorized_keys:", "  - " + sshKey]
  {
    Text.SplitJoin(UserDataLines(sshKey), '\n');
  }

  /** The shape every manifest from this builder has: the fixed kinds and
      references, the VM name reused for the root volume, the data-volume
      template and the `kubevirt.io/vm` label, exactly two volumes (`root`,
      then `cloudinit`), and a single read-write-once block-mode disk cloned
      from the image namespace. */
  ghost predicate IsMonsoonMachine(vm: VirtualMachine)
  {
    var name := vm.metadata.name;
    var labels := map[VMLabel := name];
    && vm.apiVersion == "kubevirt.io/v1"
    && vm.kind == "VirtualMachine"
    && vm.status == None
    && vm.metadata.labels == None
    && vm.metadata.creationTimestamp == None
    && vm.metadata.annotations.Some?
    && vm.metadata.annotations.value.Keys == {AddressAnnotation}
    && vm.spec.running
    && vm.spec.instancetype.kind == "VirtualMachineClusterInstancetype"
    && vm.spec.preference == ClusterRef("ubuntu", "VirtualMachineClusterPreference")
    && vm.spec.template.metadata.labels == labels
    && vm.spec.template.spec.interfaces == [Interface("default", Bridge)]
    && vm.spec.template.spec.networks == [Network("default", "bridge-external")]
    && |vm.spec.template.spec.volumes| == 2
    && vm.spec.template.spec.volumes[0] == Volume("root", DataVolume(name))
    && vm.spec.template.spec.volumes[1].name == "cloudinit"
    && vm.spec.template.spec.volumes[1].source.CloudInitNoCloud?
    && |vm.spec.dataVolumeTemplates| == 1
    && vm.spec.dataVolumeTemplates[0].metadata.name == name
    && vm.spec.dataVolumeTemplates[0].metadata.labels == Some(labels)
    && vm.spec.dataVolumeTemplates[0].metadata.annotations == None
    && vm.spec.dataVolumeTemplates[0].metadata.creationTimestamp == None
    && vm.spec.dataVolumeTemplates[0].spec.pvc.accessModes == ["ReadWriteOnce"]
    && vm.spec.dataVolumeTemplates[0].spec.pvc.volumeMode == "Block"
    && vm.spec.dataVolumeTemplates[0].spec.source.namespace == ImageNamespace
  }

  function BuildMachine(opts: BuildMachineOptions): (vm: VirtualMachine)
    ensures IsMonsoonMachine(vm)
    ensures vm.metadata.name == opts.name
    ensures Text.IsFirstField(vm.metadata.annotations.value[AddressAnnotation], opts.ipv4Address, '/')
    ensures vm.spec.instancetype.name == opts.size
    ensures vm.spec.template.spec.volumes[1].source
            == CloudInitNoCloud(NetworkData(opts.ipv4Address, opts.ipv4Gateway), UserData(opts.sshKey))
    ensures vm.spec.dataVolumeTemplates[0].spec.pvc.storage == StorageRequest(opts.rootDiskSize)
    ensures vm.spec.dataVolumeTemplates[0].spec.source.name == opts.sourcePVCName
  {
    var labels := map[VMLabel := opts.name];
    var annotations := map[AddressAnnotation := AddressWithoutLength(opts.ipv4Address)];
    var networkData := NetworkData(opts.ipv4Address, opts.ipv4Gateway);
    var userData := UserData(opts.sshKey);
    VirtualMachine(
      "kubevirt.io/v1",
      "VirtualMachine",
      ObjectMeta(opts.name, None, Some(annotations), None),
      VirtualMachineSpec(
        true,
        ClusterRef(opts.size, "VirtualMachineClusterInstancetype"),
        ClusterRef("ubuntu", "VirtualMachineClusterPreference"),
        PodTemplate(
          TemplateMeta(labels),
          PodSpec(
            [Interface("default", Bridge)],
            [Network("default", "bridge-external")],
            [Volume("root", DataVolume(opts.name)),
             Volume("cloudinit", CloudInitNoCloud(networkData, userData))])),
        [DataVolumeTemplate(
           ObjectMeta(opts.name, Some(labels), None, None),
           DataVolumeSpec(
             PvcSpec(["ReadWriteOnce"], StorageRequest(opts.rootDiskSize), "Block"),
             PvcSource(opts.sourcePVCName, ImageNamespace)))]),
      None)
  }

  /** `s` without the leading `prefix`, if it starts with it. */
  function StripPrefix(prefix: string, s: string): (r: Option<string>)
    ensures r.Some? ==> s == prefix + r.value
  {
    if prefix <= s then Some(s[|prefix|..]) else None
  }

  /** Reads the creation options back out of a manifest: the name from the
      metadata, the size from the instancetype, the disk size and image from
      the data-volume template, and the address, gateway and key from the
      cloud-init documents, line by line. */
  function MachineOptionsOf(vm: VirtualMachine): Option<BuildMachineOptions>
  {
    if |vm.spec.dataVolumeTemplates| == 0 || |vm.spec.template.spec.volumes| < 2 then None
    else
      match vm.spec.template.spec.volumes[1].source
      case DataVolume(_) => None
      case CloudInitNoCloud(networkData, userData) =>
        var netLines := Text.Split(networkData, '\n');
        var userLines := Text.Split(userData, '\n');
        var disk := vm.spec.dataVolumeTemplates[0].spec;
        if |netLines| != 12 || |userLines| != 3 then None
        else
          match (StripPrefix("      - ", netLines[4]), StripPrefix("        via: ", netLines[7]),
                 StripPrefix("  - ", userLines[2]), ParseStorageRequest(disk.pvc.storage))
          case (Some(address), Some(gateway), Some(key), Some(size)) =>
            Some(BuildMachineOptions(vm.metadata.name, vm.spec.instancetype.name, size,
                                     disk.source.name, address, gateway, key))
          case _ => None
  }

  /** Every option reaches the manifest intact: it can be read back from the
      place it was written to. So the builder is one-to-one on options whose
      address, gateway and key are single lines. */
  lemma {:induction false} BuildMachineRoundTrip(opts: BuildMachineOptions)
    requires '\n' !in opts.ipv4Address && '\n' !in opts.ipv4Gateway && '\n' !in opts.sshKey
    ensures MachineOptionsOf(BuildMachine(opts)) == Some(opts)
  {
    NetworkDataReadBack(opts.ipv4Address, opts.ipv4Gateway);
    UserDataReadBack(opts.sshKey);
    StorageRequestRoundTrip(opts.rootDiskSize);
    assert ("      - " + opts.ipv4Address)[|"      - "|..] == opts.ipv4Address;
    assert ("        via: " + opts.ipv4Gateway)[|"        via: "|..] == opts.ipv4Gateway;
    assert ("  - " + opts.sshKey)[|"  - "|..] == opts.sshKey;
  }

  lemma BuildMachineInjective(a: BuildMachineOptions, b: BuildMachineOptions)
    requires '\n' !in a.ipv4Address && '\n' !in a.ipv4Gateway && '\n' !in a.sshKey
    requires '\n' !in b.ipv4Address && '\n' !in b.ipv4Gateway && '\n' !in b.sshKey
    requires BuildMachine(a) == BuildMachine(b)
    ensures a == b
  {
    BuildMachineRoundTrip(a);
    BuildMachineRoundTrip(b);
  }
}
