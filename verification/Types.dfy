/** Values shared by the whole model: identifiers, sandbox configuration and results. */
module Types {
  import opened Allowlists

  datatype Option<+T> = None | Some(value: T)

  datatype Result<+T> = Ok(value: T) | Err(error: Error)

  /** The errors the control plane tells apart. `Fault` is any transient failure of a backend,
      of the store or of a file operation. */
  datatype Error =
    | NotFound
    | Fault
    | InvalidConfig
    | TemplateNotFound
    | HydrationIncomplete
    | ProcessNotFound
    | SandboxBusy
    | LaunchFailed
    | TimedOut
    | SnapshotNotFound
    | ArtifactMissing
    | AffinityNotFound
    | NoActiveSandbox
    | NoSnapshotToRestore
  {
    /** `is_affinity_absent_error`, which recognises these two by their message. */
    predicate AffinityAbsent() { AffinityNotFound? || NoActiveSandbox? }

    /** The failures that a working backend and a working store do not give. */
    predicate Passing() { Fault? || HydrationIncomplete? }
  }

  /** UUIDs are modelled as natural numbers handed out by a counter, which makes them fresh. */
  type SandboxId = nat
  type SnapshotId = nat
  type ProcessId = nat

  /** Points in time, in milliseconds. */
  type Time = int

  /** The contents of a sandbox's working directory. */
  type Files = map<string, string>

  datatype NetworkMode = NoNetwork | FullNetwork | AllowlistNetwork(domains: Allowlist)

  datatype SandboxConfig = SandboxConfig(
    affinityName: Option<string>,
    template: string,
    memoryMb: nat,
    vcpuCount: nat,
    workspaceDir: Option<string>,
    network: NetworkMode,
    env: seq<(string, string)>,
    timeoutSecs: nat)

  const TEMPLATES: set<string> :=
    {"python:3.11", "python:3.12", "node:18", "node:20", "golang:1.22", "rust:1.75", "ubuntu:22.04"}
}
