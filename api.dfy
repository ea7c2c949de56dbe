/**
 * The `PravegaCluster` descriptor, restricted to the fields that the
 * controller synthesis reads.
 */
module Api {
  import opened Wrappers
  import opened K8s

  datatype PravegaCluster = PravegaCluster(name: string, namespace: string, spec: ClusterSpec)

  datatype ClusterSpec = ClusterSpec(
    zookeeperUri: string,
    version: string,
    externalAccess: ExternalAccess,
    tls: TlsPolicy,
    pravega: PravegaSpec)

  /** `serviceType` is the `corev1.ServiceType` requested for external access. */
  datatype ExternalAccess = ExternalAccess(enabled: bool, serviceType: string)

  /** `staticTls` is the `*StaticTLS` pointer, `None` when nil. */
  datatype TlsPolicy = TlsPolicy(staticTls: Option<StaticTls>)

  datatype StaticTls = StaticTls(controllerSecret: string)

  datatype ImageSpec = ImageSpec(pullPolicy: string)

  /** `controllerResources` is the `*corev1.ResourceRequirements` pointer, `None` when nil. */
  datatype PravegaSpec = PravegaSpec(
    controllerReplicas: Int32,
    image: ImageSpec,
    options: map<string, string>,
    controllerServiceAccountName: string,
    controllerResources: Option<ResourceRequirements>)
}
