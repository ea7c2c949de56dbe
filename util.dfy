/**
 * The helpers that the controller synthesis calls but whose definitions are
 * not part of this model: the `util` package's name and label builders, image
 * and anti-affinity builders, health-check command and version comparison,
 * `TLSPolicy.IsSecureController`, and the package constants for the TLS
 * volume name and mount directory. Each is a field of `Helpers`, so every
 * property proved about the synthesis holds whatever these helpers compute.
 */
module Util {
  import opened Wrappers
  import opened K8s
  import opened Api

  /** The `(bool, error)` pair that `util.CompareVersions` returns. */
  datatype VersionMatch = VersionMatch(matched: bool, err: Option<string>)

  datatype Helpers = Helpers(
    deploymentNameForController: string -> string,
    configMapNameForController: string -> string,
    serviceNameForController: string -> string,
    pdbNameForController: string -> string,
    labelsForController: PravegaCluster -> map<string, string>,
    pravegaImage: PravegaCluster -> string,
    podAntiAffinity: (string, string) -> Affinity,
    healthcheckCommand: Int32 -> seq<string>,
    compareVersions: (string, string, string) -> VersionMatch,
    isSecureController: TlsPolicy -> bool,
    tlsVolumeName: string,
    tlsMountDir: string)
}
