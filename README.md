# Pravega operator: controller resource synthesis

This project models how the Pravega operator turns one `PravegaCluster` descriptor into
the Kubernetes objects that run the cluster's Pravega Controller. It then proves what those
objects contain. The objects are:

- the controller **Deployment**, with its pod template and pod spec. The pod spec is built
  through a pointer and changed in place when TLS is on;
- the controller **ConfigMap**, whose `JAVA_OPTS` entry joins a JVM flag list with spaces.
  That list is a fixed baseline, then a block gated on the Pravega version, then one
  `-D<name>=<value>` flag per user option;
- the controller **Service**;
- the controller **PodDisruptionBudget**.

Modules:

- `Wrappers`: `Option`.
- `K8s`: the slices of the Kubernetes API objects that the synthesis fills in.
- `Api`: the descriptor fields it reads.
- `Util`: the helpers it calls. These are the `util` name, label, image, anti-affinity,
  health-check and version-comparison functions, `IsSecureController`, and the TLS volume
  name and mount directory. They appear as fields of a `Helpers` record, so every result
  holds whatever the helpers compute.
- `Strings`: Go's `strings.Join`, a splitter, and their round trips.
- `JavaOpts`: the flag list and what is proved about it.
- `PravegaController`: the synthesis itself.

Go ranges over a map in an unspecified order. The option loop therefore picks any key it
has not visited yet, and a ghost out-parameter records the order it took. The lemmas hold
for every such order.

## Model

| member | source | states |
|---|---|---|
| PravegaController.MakeControllerConfigMap | pkg/controller/pravega/pravega_controller.go:145-194 | The ConfigMap is `ConfigMap`/`v1`. It carries the controller's ConfigMap name, namespace and labels. Its data is the ten-key data with `JAVA_OPTS` = the space-joined flag list of the cluster, for the order in which the options map was actually ranged over. |
| PravegaController.ControllerConfigData | pkg/controller/pravega/pravega_controller.go:167-178 | The data has exactly the ten keys. `ZK_URL` and `WAIT_FOR` are both the ZooKeeper URI. The cluster name, the REST port "10080", the gRPC port "9090" and the fixed security defaults sit under their keys. |
| JavaOpts.AppendOptionFlags | pkg/controller/pravega/pravega_controller.go:163-165 | The loop visits every option key exactly once, in some order, and appends exactly that order's `-D<name>=<value>` flags. The flags it was given stay in front. After them come one flag per option, every option's flag, and nothing but option flags. |
| JavaOpts.OptionFlagsAfter | pkg/controller/pravega/pravega_controller.go:163-165 | For any enumeration of the options, the appended part has one flag per option, holds every option's flag, and holds nothing else. |
| JavaOpts.OptionFlags | pkg/controller/pravega/pravega_controller.go:163-165 | There is one flag per visited key. Flag i is `-D<key i>=<value of key i>`. |
| JavaOpts.OptionFlagsOrderIrrelevant | pkg/controller/pravega/pravega_controller.go:163-165 | Any two orders of the same keys give the same option flags up to permutation (equal multisets). Only their order depends on how the map is ranged. |
| JavaOpts.OptionFlagsCover | pkg/controller/pravega/pravega_controller.go:163-165 | Every option's `-D<name>=<value>` flag is among the option flags, whatever the order. |
| JavaOpts.OptionFlagsAreDefines | pkg/controller/pravega/pravega_controller.go:164 | Every option flag starts with `-D`. |
| JavaOpts.FlagCount | pkg/controller/pravega/pravega_controller.go:146-165 | The list has 5 flags, plus 3 when the version gate is open, plus one per option. |
| JavaOpts.FlagLayout | pkg/controller/pravega/pravega_controller.go:146-165 | The list opens with the five baseline flags. When the gate is open the three gated flags follow at positions 5 to 7. Everything after the fixed flags is the option flags, and they include every option's flag. |
| JavaOpts.FixedFlagsLayout | pkg/controller/pravega/pravega_controller.go:146-161 | The fixed flags are the baseline (5 flags), then the gated block (3 flags) exactly when the gate is open. |
| JavaOpts.GatedFlagsAreNew | pkg/controller/pravega/pravega_controller.go:146-165 | No baseline flag and no option flag equals one of the three gated flags. |
| JavaOpts.GatedFlagsIffGateOpen | pkg/controller/pravega/pravega_controller.go:154-161 | Each gated flag is in the list if and only if `CompareVersions(version, "0.4.0", ">=")` matched. |
| JavaOpts.MemoryJoin | pkg/controller/pravega/pravega_controller.go:146-150 | The four memory flags joined with single spaces, written out. |
| JavaOpts.BaselineJoin | pkg/controller/pravega/pravega_controller.go:146-152 | The five baseline flags joined with single spaces, written out, ending in `-Dpravegaservice.clusterName=<name>`. |
| JavaOpts.BaselinePrefix | pkg/controller/pravega/pravega_controller.go:146-170 | `JAVA_OPTS` starts with the joined baseline flags, whatever the version gate and the options. |
| JavaOpts.GatedJoin | pkg/controller/pravega/pravega_controller.go:156-160 | The three gated flags joined with single spaces, written out. |
| JavaOpts.JoinedFlags | pkg/controller/pravega/pravega_controller.go:146-170 | `JAVA_OPTS` is the joined baseline, then " " and the joined gated block when the gate is open, then " " and the joined option flags when there are options. |
| JavaOpts.SplitJoinedFlags | pkg/controller/pravega/pravega_controller.go:170 | Splitting `JAVA_OPTS` at spaces gives the flag list back whenever the cluster name and the option names and values contain no space. |
| Strings.SplitJoin | pkg/controller/pravega/pravega_controller.go:170 | Joining a non-empty list of separator-free strings and splitting the result gives the list back. |
| Strings.JoinSplit | pkg/controller/pravega/pravega_controller.go:170 | Splitting any string and re-joining the pieces gives the string back. |
| PravegaController.ControllerContainer | pkg/controller/pravega/pravega_controller.go:60-112 | The container is named `pravega-controller` with args `controller`, the Pravega image and the descriptor's pull policy. It has the ports rest 10080 and grpc 9090, environment from the controller ConfigMap, and the descriptor's resources. It starts with no volume mounts. |
| PravegaController.ControllerProbeTiming | pkg/controller/pravega/pravega_controller.go:88-111 | Both probes run the health check on the grpc port. Readiness starts at once and tolerates 60 s of failures. Liveness starts only after that 60 s window and restarts the pod after 60 s of failures. |
| PravegaController.ControllerProbeSettings | pkg/controller/pravega/pravega_controller.go:94-110 | Readiness is checked every 5 s with threshold 12. Liveness is checked every 15 s after a 60 s delay, with threshold 4. |
| PravegaController.ConfigureControllerTlsSecrets | pkg/controller/pravega/pravega_controller.go:126-143 | It needs a first container only when TLS is on. When TLS is on, it appends exactly one secret volume to the pod and one mount of it to the first container, and nothing else changes. When TLS is off, nothing changes. In both cases every mount still names a volume of the pod. |
| PravegaController.MakeControllerPodSpec | pkg/controller/pravega/pravega_controller.go:58-124 | The pod spec has exactly one container, the controller container, carrying the TLS mount exactly when TLS is on. Its volumes are the TLS volume when TLS is on and none otherwise. It has the descriptor's service account (empty unless one is named) and the controller anti-affinity. Every mount names a volume. |
| PravegaController.MakeControllerPodTemplate | pkg/controller/pravega/pravega_controller.go:48-56 | The template carries the controller labels and exactly the annotation `pravega.version` = the descriptor's version. Its spec is the controller pod spec, with 1 volume when TLS is on and 0 otherwise. |
| PravegaController.MakeControllerDeployment | pkg/controller/pravega/pravega_controller.go:27-46 | The object is `Deployment`/`apps/v1` with the controller's name and namespace. Its labels, its selector and its template's labels are all the controller labels. Replicas is the requested count, and the template is the controller pod template. |
| PravegaController.MakeControllerService | pkg/controller/pravega/pravega_controller.go:196-226 | The type is ClusterIP unless external access is enabled, and then it is the requested type. The ports correspond one to one, by name and number, to the container's ports. Labels and selector are the controller labels. |
| PravegaController.MakeControllerPodDisruptionBudget | pkg/controller/pravega/pravega_controller.go:228-246 | `minAvailable` is the integer 1, whatever the replica count. The selector is the controller labels and the budget's own metadata has no labels. Its name, namespace and type are `PodDisruptionBudget`/`policy/v1beta1`. |

## Left out

- The `util` helpers, `IsSecureController`, `tlsVolumeName` and `tlsMountDir` are not part of this model. They are uninterpreted fields of `Util.Helpers`, so nothing is assumed about the names, labels, image, affinity or health-check command they produce.
- `util.CompareVersions` is not part of this model. The synthesis uses only its boolean and drops its error, and so does the model (`VersionGateOpen`). A malformed version disables the gated flags only if `util.CompareVersions` returns false together with its error; the model leaves that open.
- The code ranges over a Go map, so the order of the option flags, and with it the `JAVA_OPTS` string, can differ between calls. The lemmas hold for every order, and `OptionFlagsOrderIrrelevant` shows that only the order changes.
- `ControllerResources` and `TLS.Static` are pointers the code dereferences. A nil `ControllerResources` would panic and is excluded by a precondition. A nil `Static` under a secure TLS policy is excluded by `TlsSettingsPresent`. `p.Spec.TLS` itself is modelled as a value, so a nil TLS policy is not distinguished.
- The Deployment's `Replicas` is a pointer into the descriptor, so the two alias each other. The model copies the value.
- The returned objects are Go pointers. The model returns values, except for the pod spec, which is a `PodSpecRef` object while it is built.
- Resource requirements and affinity are opaque values. Of each Kubernetes object, only the fields the synthesis sets are modelled: probes are exec commands, volumes are secret volumes, and `minAvailable` is an int-or-string.
- Reconciliation, the Kubernetes client and every other part of the operator are not part of this model.
