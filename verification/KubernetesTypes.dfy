/** The Kubernetes and KubeVirt resources the console reads and writes. The
    generic object carries `apiVersion`, `kind` and `metadata`; the
    VirtualMachine's `spec` has exactly the parts the manifest builder fills
    in. Label and annotation records are maps. */
module KubernetesTypes {

  import opened Wrappers

  type StringMap = map<string, string>

  /** `metadata` of a KubernetesObject: `name` is required, the rest optional. */
  datatype ObjectMeta = ObjectMeta(
    name: string,
    labels: Option<StringMap>,
    annotations: Option<StringMap>,
    creationTimestamp: Option<string>)

  datatype KubernetesList<T> = KubernetesList(items: seq<T>)

  /** A Namespace has no spec the console looks at. */
  datatype Namespace = Namespace(apiVersion: string, kind: string, metadata: ObjectMeta)

  datatype InvolvedObject = InvolvedObject(kind: string, name: string)

  datatype KubernetesEvent = KubernetesEvent(
    apiVersion: string,
    kind: string,
    metadata: ObjectMeta,
    lastTimestamp: string,
    eventType: string,
    reason: string,
    message: string,
    involvedObject: InvolvedObject)

  /** `{name, kind}` reference to a cluster-scoped instancetype or preference. */
  datatype ClusterRef = ClusterRef(name: string, kind: string)

  /** `metadata` of the pod template: labels only. */
  datatype TemplateMeta = TemplateMeta(labels: StringMap)

  /** The interface binding `bridge: {}`. */
  datatype Interface = Interface(name: string, binding: InterfaceBinding)
  datatype InterfaceBinding = Bridge

  /** A network attached through Multus: `multus: {networkName}`. */
  datatype Network = Network(name: string, multusNetworkName: string)

  datatype Volume = Volume(name: string, source: VolumeSource)
  datatype VolumeSource =
    | DataVolume(dataVolumeName: string)
    | CloudInitNoCloud(networkData: string, userData: string)

  datatype PodSpec = PodSpec(interfaces: seq<Interface>, networks: seq<Network>, volumes: seq<Volume>)

  datatype PodTemplate = PodTemplate(metadata: TemplateMeta, spec: PodSpec)

  /** `pvc` of a DataVolume: `resources.requests.storage` is `storage`. */
  datatype PvcSpec = PvcSpec(accessModes: seq<string>, storage: string, volumeMode: string)

  /** `source.pvc` of a DataVolume: the volume claim it is cloned from. */
  datatype PvcSource = PvcSource(name: string, namespace: string)

  datatype DataVolumeSpec = DataVolumeSpec(pvc: PvcSpec, source: PvcSource)

  datatype DataVolumeTemplate = DataVolumeTemplate(metadata: ObjectMeta, spec: DataVolumeSpec)

  datatype VirtualMachineSpec = VirtualMachineSpec(
    running: bool,
    instancetype: ClusterRef,
    preference: ClusterRef,
    template: PodTemplate,
    dataVolumeTemplates: seq<DataVolumeTemplate>)

  /** `status` is set by the cluster; absent means pending. */
  datatype VirtualMachineStatus = VirtualMachineStatus(printableStatus: string)

  datatype VirtualMachine = VirtualMachine(
    apiVersion: string,
    kind: string,
    metadata: ObjectMeta,
    spec: VirtualMachineSpec,
    status: Option<VirtualMachineStatus>)
}
