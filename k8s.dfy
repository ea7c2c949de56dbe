/**
 * Value types standing for the Kubernetes API objects the Pravega controller
 * synthesis produces (core/v1, apps/v1, policy/v1beta1, meta/v1 and intstr).
 * Only the fields that the controller sets are modelled; a field the Go code
 * leaves unset carries Go's zero value (0, "", an empty map or list).
 */
module K8s {

  /** A Kubernetes `int32` field. */
  type Int32 = x: int | -0x8000_0000 <= x < 0x8000_0000

  /** `corev1.ResourceRequirements`: copied verbatim from the descriptor, never inspected. */
  type ResourceRequirements(==)

  /** `corev1.Affinity`: built by a helper, never inspected. */
  type Affinity(==)

  /** `corev1.ServiceTypeClusterIP`. */
  const ServiceTypeClusterIP: string := "ClusterIP"

  datatype TypeMeta = TypeMeta(kind: string, apiVersion: string)

  datatype ObjectMeta = ObjectMeta(
    name: string,
    namespace: string,
    labels: map<string, string>,
    annotations: map<string, string>)

  datatype LabelSelector = LabelSelector(matchLabels: map<string, string>)

  /** `intstr.IntOrString`. */
  datatype IntOrString = IntVal(intVal: Int32) | StrVal(strVal: string)

  datatype ContainerPort = ContainerPort(name: string, containerPort: Int32)

  /** An `EnvFromSource` whose only source is a ConfigMap reference. */
  datatype EnvFromSource = ConfigMapRef(configMapName: string)

  /** A probe whose handler is an exec action running `command`. */
  datatype Probe = Probe(
    command: seq<string>,
    initialDelaySeconds: Int32,
    periodSeconds: Int32,
    failureThreshold: Int32)

  datatype VolumeMount = VolumeMount(name: string, mountPath: string)

  /** A volume whose only source is a Secret. */
  datatype Volume = Volume(name: string, secretName: string)

  datatype Container = Container(
    name: string,
    image: string,
    imagePullPolicy: string,
    args: seq<string>,
    ports: seq<ContainerPort>,
    envFrom: seq<EnvFromSource>,
    resources: ResourceRequirements,
    readinessProbe: Probe,
    livenessProbe: Probe,
    volumeMounts: seq<VolumeMount>)

  datatype PodSpec = PodSpec(
    containers: seq<Container>,
    volumes: seq<Volume>,
    serviceAccountName: string,
    affinity: Affinity)

  datatype PodTemplateSpec = PodTemplateSpec(metadata: ObjectMeta, spec: PodSpec)

  datatype DeploymentSpec = DeploymentSpec(
    replicas: Int32,
    template: PodTemplateSpec,
    selector: LabelSelector)

  datatype Deployment = Deployment(typeMeta: TypeMeta, metadata: ObjectMeta, spec: DeploymentSpec)

  datatype ConfigMap = ConfigMap(typeMeta: TypeMeta, metadata: ObjectMeta, data: map<string, string>)

  datatype ServicePort = ServicePort(name: string, port: Int32)

  datatype ServiceSpec = ServiceSpec(
    serviceType: string,
    ports: seq<ServicePort>,
    selector: map<string, string>)

  datatype Service = Service(typeMeta: TypeMeta, metadata: ObjectMeta, spec: ServiceSpec)

  datatype PodDisruptionBudgetSpec = PodDisruptionBudgetSpec(
    minAvailable: IntOrString,
    selector: LabelSelector)

  datatype PodDisruptionBudget = PodDisruptionBudget(
    typeMeta: TypeMeta,
    metadata: ObjectMeta,
    spec: PodDisruptionBudgetSpec)

  /** Some volume of the pod is called `name`. */
  predicate HasVolume(volumes: seq<Volume>, name: string)
  {
    exists v :: v in volumes && v.name == name
  }

  /** Every volume mount of every container names a volume of the pod,
      as the API server demands of a pod spec. */
  predicate MountsResolve(spec: PodSpec)
  {
    forall c, m :: c in spec.containers && m in c.volumeMounts ==> HasVolume(spec.volumes, m.name)
  }
}
