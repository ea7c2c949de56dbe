/**
 * The synthesis of the four Kubernetes objects that run the Pravega
 * Controller of one `PravegaCluster`: its Deployment (with the pod template),
 * its ConfigMap, its Service and its PodDisruptionBudget.
 *
 * The pod spec is built through a pointer and changed in place when TLS is on,
 * and the JAVA_OPTS flag list grows by appends inside a loop over a Go map;
 * those parts are methods. The Service and the PodDisruptionBudget are single
 * struct literals and are functions.
 */
module PravegaController {
  import opened Wrappers
  import opened K8s
  import opened Api
  import opened Util
  import Strings
  import JavaOpts

  /** The name of the controller container, also the role the anti-affinity rule is keyed by. */
  const ControllerName: string := "pravega-controller"

  const RestPort: Int32 := 10080
  const GrpcPort: Int32 := 9090

  // ---------------------------------------------------------------------------
  // JAVA_OPTS
  // ---------------------------------------------------------------------------

  /** The boolean half of `CompareVersions(version, "0.4.0", ">=")`; its error half is discarded. */
  predicate VersionGateOpen(p: PravegaCluster, u: Helpers)
  {
    u.compareVersions(p.spec.version, "0.4.0", ">=").matched
  }

  /** The JAVA_OPTS flag list of a cluster when its options are ranged over in the order `order`. */
  function JavaOptsFlags(p: PravegaCluster, u: Helpers, order: seq<string>): seq<string>
    requires forall k :: k in order ==> k in p.spec.pravega.options
  {
    JavaOpts.Flags(p.name, VersionGateOpen(p, u), p.spec.pravega.options, order)
  }

  /** The keys of the controller ConfigMap. */
  const ConfigKeys: set<string> :=
    { "CLUSTER_NAME", "ZK_URL", "JAVA_OPTS", "REST_SERVER_PORT", "CONTROLLER_SERVER_PORT",
      "AUTHORIZATION_ENABLED", "TOKEN_SIGNING_KEY", "USER_PASSWORD_FILE", "TLS_ENABLED", "WAIT_FOR" }

  /** The ConfigMap data: always the same ten keys; the ZooKeeper address both as
      ZK_URL and as WAIT_FOR; the two ports, and fixed security defaults. */
  function ControllerConfigData(p: PravegaCluster, javaOpts: string): (data: map<string, string>)
    ensures data.Keys == ConfigKeys
    ensures data["CLUSTER_NAME"] == p.name
    ensures data["ZK_URL"] == data["WAIT_FOR"] == p.spec.zookeeperUri
    ensures data["JAVA_OPTS"] == javaOpts
    ensures data["REST_SERVER_PORT"] == "10080"
    ensures data["CONTROLLER_SERVER_PORT"] == "9090"
    ensures data["AUTHORIZATION_ENABLED"] == "false"
    ensures data["TOKEN_SIGNING_KEY"] == "secret"
    ensures data["USER_PASSWORD_FILE"] == "/etc/pravega/conf/passwd"
    ensures data["TLS_ENABLED"] == "false"
  {
    map[
      "CLUSTER_NAME" := p.name,
      "ZK_URL" := p.spec.zookeeperUri,
      "JAVA_OPTS" := javaOpts,
      "REST_SERVER_PORT" := "10080",
      "CONTROLLER_SERVER_PORT" := "9090",
      "AUTHORIZATION_ENABLED" := "false",
      "TOKEN_SIGNING_KEY" := "secret",
      "USER_PASSWORD_FILE" := "/etc/pravega/conf/passwd",
      "TLS_ENABLED" := "false",
      "WAIT_FOR" := p.spec.zookeeperUri
    ]
  }

  /**
   * The controller ConfigMap. The ghost `order` is the order in which the
   * options map happened to be ranged over, and `javaOpts` the flag list built.
   */
  method MakeControllerConfigMap(p: PravegaCluster, u: Helpers)
    returns (configMap: ConfigMap, ghost javaOpts: seq<string>, ghost order: seq<string>)
    ensures JavaOpts.IsKeyOrder(order, p.spec.pravega.options.Keys)
    ensures javaOpts == JavaOptsFlags(p, u, order)
    ensures configMap.typeMeta == TypeMeta("ConfigMap", "v1")
    ensures configMap.metadata ==
      ObjectMeta(u.configMapNameForController(p.name), p.namespace, u.labelsForController(p), map[])
    ensures configMap.data == ControllerConfigData(p, Strings.Join(javaOpts, " "))
  {
    var opts := JavaOpts.BaselineFlags(p.name);
    var gate := u.compareVersions(p.spec.version, "0.4.0", ">=");
    if gate.matched {
      opts := opts + JavaOpts.VersionGatedFlags;
    }

    assert opts == JavaOpts.FixedFlags(p.name, VersionGateOpen(p, u));
    opts, order := JavaOpts.AppendOptionFlags(opts, p.spec.pravega.options);
    javaOpts := opts;

    var data := ControllerConfigData(p, Strings.Join(opts, " "));
    configMap := ConfigMap(
      TypeMeta("ConfigMap", "v1"),
      ObjectMeta(u.configMapNameForController(p.name), p.namespace, u.labelsForController(p), map[]),
      data);
  }

  // ---------------------------------------------------------------------------
  // Pod spec
  // ---------------------------------------------------------------------------

  /** The descriptor carries the static TLS settings whenever the controller is to run
      securely (the TLS branch dereferences them). */
  predicate TlsSettingsPresent(p: PravegaCluster, u: Helpers)
  {
    u.isSecureController(p.spec.tls) ==> p.spec.tls.staticTls.Some?
  }

  /** The container ports, rest and grpc. */
  const ControllerContainerPorts: seq<ContainerPort> :=
    [ContainerPort("rest", RestPort), ContainerPort("grpc", GrpcPort)]

  /** The sole controller container as first built, before any TLS mount: it publishes
      the rest and grpc ports, takes its environment from the controller ConfigMap and
      its resources from the descriptor, and mounts nothing yet. */
  function ControllerContainer(p: PravegaCluster, u: Helpers): (c: Container)
    requires p.spec.pravega.controllerResources.Some?
    ensures c.name == ControllerName && c.args == ["controller"]
    ensures c.image == u.pravegaImage(p) && c.imagePullPolicy == p.spec.pravega.image.pullPolicy
    ensures c.ports == ControllerContainerPorts
    ensures c.envFrom == [ConfigMapRef(u.configMapNameForController(p.name))]
    ensures c.resources == p.spec.pravega.controllerResources.value
    ensures c.volumeMounts == []
  {
    Container(
      ControllerName,
      u.pravegaImage(p),
      p.spec.pravega.image.pullPolicy,
      ["controller"],
      [ContainerPort("rest", 10080), ContainerPort("grpc", 9090)],
      [ConfigMapRef(u.configMapNameForController(p.name))],
      p.spec.pravega.controllerResources.value,
      Probe(u.healthcheckCommand(9090), 0, 5, 12),
      Probe(u.healthcheckCommand(9090), 60, 15, 4),
      [])
  }

  /** The two probes run the same health check against the grpc port. The pod has up
      to one minute to become ready; liveness checking starts only once that minute is
      over, after which one minute of failed checks gets the pod restarted. */
  lemma ControllerProbeTiming(p: PravegaCluster, u: Helpers)
    requires p.spec.pravega.controllerResources.Some?
    ensures var c := ControllerContainer(p, u);
      && c.readinessProbe.command == c.livenessProbe.command == u.healthcheckCommand(GrpcPort)
      && c.readinessProbe.initialDelaySeconds == 0
      && c.readinessProbe.periodSeconds * c.readinessProbe.failureThreshold == 60
      && c.livenessProbe.initialDelaySeconds ==
           c.readinessProbe.periodSeconds * c.readinessProbe.failureThreshold
      && c.livenessProbe.periodSeconds * c.livenessProbe.failureThreshold == 60
  {
  }

  /** The probe settings themselves: readiness every 5 seconds, failing after 12 misses;
      liveness every 15 seconds after a 60-second delay, failing after 4 misses. */
  lemma ControllerProbeSettings(p: PravegaCluster, u: Helpers)
    requires p.spec.pravega.controllerResources.Some?
    ensures var c := ControllerContainer(p, u);
      && c.readinessProbe.periodSeconds == 5 && c.readinessProbe.failureThreshold == 12
      && c.livenessProbe.initialDelaySeconds == 60
      && c.livenessProbe.periodSeconds == 15 && c.livenessProbe.failureThreshold == 4
  {
  }

  /** The volume holding the controller's TLS secret. */
  function TlsVolume(p: PravegaCluster, u: Helpers): Volume
    requires p.spec.tls.staticTls.Some?
  {
    Volume(u.tlsVolumeName, p.spec.tls.staticTls.value.controllerSecret)
  }

  /** The mount of the TLS volume. */
  function TlsVolumeMount(u: Helpers): VolumeMount
  {
    VolumeMount(u.tlsVolumeName, u.tlsMountDir)
  }

  /** What `makeControllerPodSpec` produces: exactly one container, mounting the TLS volume
      exactly when TLS is on; the TLS volume and nothing else exactly when TLS is on; the
      service account as given; the anti-affinity rule for the controller role. */
  ghost predicate IsControllerPodSpec(spec: PodSpec, p: PravegaCluster, u: Helpers)
    requires p.spec.pravega.controllerResources.Some?
    requires TlsSettingsPresent(p, u)
  {
    var secure := u.isSecureController(p.spec.tls);
    && |spec.containers| == 1
    && spec.containers[0] == ControllerContainer(p, u).(volumeMounts := if secure then [TlsVolumeMount(u)] else [])
    && spec.volumes == (if secure then [TlsVolume(p, u)] else [])
    && spec.serviceAccountName == p.spec.pravega.controllerServiceAccountName
    && spec.affinity == u.podAntiAffinity(ControllerName, p.name)
  }

  /** A pod spec reached through a pointer: the `*corev1.PodSpec` that
      `makeControllerPodSpec` fills in and `configureControllerTLSSecrets` changes in place. */
  class PodSpecRef {
    var val: PodSpec

    constructor (spec: PodSpec)
      ensures val == spec
    {
      val := spec;
    }
  }

  /** When TLS is on, appends the TLS volume to the pod and its mount to the first
      container, and changes nothing else; when TLS is off, changes nothing. */
  method ConfigureControllerTlsSecrets(podSpec: PodSpecRef, p: PravegaCluster, u: Helpers)
    requires u.isSecureController(p.spec.tls) ==> |podSpec.val.containers| >= 1
    requires TlsSettingsPresent(p, u)
    modifies podSpec
    ensures u.isSecureController(p.spec.tls) ==>
      var was := old(podSpec.val);
      podSpec.val == was.(
        volumes := was.volumes + [TlsVolume(p, u)],
        containers := was.containers[0 := was.containers[0].(
          volumeMounts := was.containers[0].volumeMounts + [TlsVolumeMount(u)])])
    ensures !u.isSecureController(p.spec.tls) ==> podSpec.val == old(podSpec.val)
    ensures |podSpec.val.containers| == |old(podSpec.val.containers)|
    ensures MountsResolve(old(podSpec.val)) ==> MountsResolve(podSpec.val)
  {
    if u.isSecureController(p.spec.tls) {
      var vol := Volume(u.tlsVolumeName, p.spec.tls.staticTls.value.controllerSecret);
      podSpec.val := podSpec.val.(volumes := podSpec.val.volumes + [vol]);

      var c0 := podSpec.val.containers[0];
      var c0' := c0.(volumeMounts := c0.volumeMounts + [VolumeMount(u.tlsVolumeName, u.tlsMountDir)]);
      podSpec.val := podSpec.val.(containers := podSpec.val.containers[0 := c0']);

      ghost var was := old(podSpec.val);
      if MountsResolve(was) {
        forall c, m | c in podSpec.val.containers && m in c.volumeMounts
          ensures HasVolume(podSpec.val.volumes, m.name)
        {
          if m.name == u.tlsVolumeName {
            assert vol in podSpec.val.volumes;
          } else {
            var i :| 0 <= i < |podSpec.val.containers| && podSpec.val.containers[i] == c;
            assert m in was.containers[i].volumeMounts;
            var v :| v in was.volumes && v.name == m.name;
            assert v in podSpec.val.volumes;
          }
        }
      }
    }
  }

  /** `makeControllerPodSpec`: builds the pod spec, sets the service account only when
      one is named, then applies the TLS configuration. */
  method MakeControllerPodSpec(p: PravegaCluster, u: Helpers) returns (podSpec: PodSpecRef)
    requires p.spec.pravega.controllerResources.Some?
    requires TlsSettingsPresent(p, u)
    ensures fresh(podSpec)
    ensures IsControllerPodSpec(podSpec.val, p, u)
    ensures MountsResolve(podSpec.val)
  {
    podSpec := new PodSpecRef(PodSpec(
      [ControllerContainer(p, u)],
      [],
      "",
      u.podAntiAffinity(ControllerName, p.name)));

    if p.spec.pravega.controllerServiceAccountName != "" {
      podSpec.val := podSpec.val.(serviceAccountName := p.spec.pravega.controllerServiceAccountName);
    }

    ConfigureControllerTlsSecrets(podSpec, p, u);
  }

  /** The pod template: controller labels, the Pravega version as an annotation, and a
      copy of the pod spec. */
  method MakeControllerPodTemplate(p: PravegaCluster, u: Helpers) returns (template: PodTemplateSpec)
    requires p.spec.pravega.controllerResources.Some?
    requires TlsSettingsPresent(p, u)
    ensures template.metadata.labels == u.labelsForController(p)
    ensures template.metadata.annotations == map["pravega.version" := p.spec.version]
    ensures IsControllerPodSpec(template.spec, p, u)
    ensures MountsResolve(template.spec)
    ensures |template.spec.volumes| == (if u.isSecureController(p.spec.tls) then 1 else 0)
  {
    var podSpec := MakeControllerPodSpec(p, u);
    template := PodTemplateSpec(
      ObjectMeta("", "", u.labelsForController(p), map["pravega.version" := p.spec.version]),
      podSpec.val);
  }

  /** The controller Deployment: replicas as requested, selecting exactly the pods its
      template labels. */
  method MakeControllerDeployment(p: PravegaCluster, u: Helpers) returns (deployment: Deployment)
    requires p.spec.pravega.controllerResources.Some?
    requires TlsSettingsPresent(p, u)
    ensures deployment.typeMeta == TypeMeta("Deployment", "apps/v1")
    ensures deployment.metadata.name == u.deploymentNameForController(p.name)
    ensures deployment.metadata.namespace == p.namespace
    ensures deployment.metadata.labels == deployment.spec.selector.matchLabels
         == deployment.spec.template.metadata.labels == u.labelsForController(p)
    ensures deployment.spec.replicas == p.spec.pravega.controllerReplicas
    ensures deployment.spec.template.metadata.annotations == map["pravega.version" := p.spec.version]
    ensures IsControllerPodSpec(deployment.spec.template.spec, p, u)
  {
    var template := MakeControllerPodTemplate(p, u);
    deployment := Deployment(
      TypeMeta("Deployment", "apps/v1"),
      ObjectMeta(u.deploymentNameForController(p.name), p.namespace, u.labelsForController(p), map[]),
      DeploymentSpec(
        p.spec.pravega.controllerReplicas,
        template,
        LabelSelector(u.labelsForController(p))));
  }

  // ---------------------------------------------------------------------------
  // Service and PodDisruptionBudget
  // ---------------------------------------------------------------------------

  /** The controller Service: ClusterIP unless external access is enabled, publishing
      the container's two ports and selecting the controller pods. */
  function MakeControllerService(p: PravegaCluster, u: Helpers): (svc: Service)
    ensures !p.spec.externalAccess.enabled ==> svc.spec.serviceType == ServiceTypeClusterIP
    ensures p.spec.externalAccess.enabled ==> svc.spec.serviceType == p.spec.externalAccess.serviceType
    ensures |svc.spec.ports| == |ControllerContainerPorts|
    ensures forall i :: 0 <= i < |svc.spec.ports| ==>
      svc.spec.ports[i].name == ControllerContainerPorts[i].name
      && svc.spec.ports[i].port == ControllerContainerPorts[i].containerPort
    ensures svc.metadata.labels == svc.spec.selector == u.labelsForController(p)
    ensures svc.metadata.name == u.serviceNameForController(p.name)
    ensures svc.metadata.namespace == p.namespace
    ensures svc.typeMeta == TypeMeta("Service", "v1")
  {
    var serviceType := if p.spec.externalAccess.enabled then p.spec.externalAccess.serviceType
                       else ServiceTypeClusterIP;
    Service(
      TypeMeta("Service", "v1"),
      ObjectMeta(u.serviceNameForController(p.name), p.namespace, u.labelsForController(p), map[]),
      ServiceSpec(
        serviceType,
        [ServicePort("rest", 10080), ServicePort("grpc", 9090)],
        u.labelsForController(p)))
  }

  /** The controller PodDisruptionBudget: at least one controller pod stays available,
      whatever the replica count; its own metadata carries no labels. */
  function MakeControllerPodDisruptionBudget(p: PravegaCluster, u: Helpers): (pdb: PodDisruptionBudget)
    ensures pdb.spec.minAvailable == IntVal(1)
    ensures pdb.spec.selector.matchLabels == u.labelsForController(p)
    ensures pdb.metadata.labels == map[]
    ensures pdb.metadata.name == u.pdbNameForController(p.name)
    ensures pdb.metadata.namespace == p.namespace
    ensures pdb.typeMeta == TypeMeta("PodDisruptionBudget", "policy/v1beta1")
  {
    var minAvailable := IntVal(1);
    PodDisruptionBudget(
      TypeMeta("PodDisruptionBudget", "policy/v1beta1"),
      ObjectMeta(u.pdbNameForController(p.name), p.namespace, map[], map[]),
      PodDisruptionBudgetSpec(minAvailable, LabelSelector(u.labelsForController(p))))
  }
}
