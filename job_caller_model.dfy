/**
 * What a job caller is built from and what it holds: the job context, the
 * configuration, the collaborators whose code is not part of this model, the
 * launch configs and the two caller kinds, and the executor data directory.
 */
module JobCallerModel {
  import opened Wrappers

  datatype TaskRunMode = Process | K8s

  datatype TaskMonitorMode = Push | Pull

  /** The description of one job: its identifier and its string-valued properties. */
  datatype JobContext = JobContext(jobId: int, jobProperties: map<string, string>)

  /** The encryptor configuration the K8s executor needs to configure its own decryption. */
  datatype JasyptEncryptorConfigProperties = JasyptEncryptorConfigProperties(
    algorithm: string, prefix: string, suffix: string, salt: string)

  /** The memory bounds for a process executor. */
  datatype TaskFrameworkProperties = TaskFrameworkProperties(
    jobProcessMinMemorySizeInMB: int, jobProcessMaxMemorySizeInMB: int)

  /**
   * The collaborators the builder calls, as uninterpreted functions: the
   * environment factory, the two job-property readers, the environment
   * encryption, the string encryption (key and salt may be null), JSON
   * serialisation, and the configured executor data directory.
   */
  datatype JobServices = JobServices(
    environmentFactory: (JobContext, TaskRunMode) -> map<string, string>,
    executorListenPort: map<string, string> -> int,
    monitorMode: map<string, string> -> Option<TaskMonitorMode>,
    encryptEnvironments: map<string, string> -> map<string, string>,
    encrypt: (Option<string>, Option<string>, string) -> string,
    toJson: JobContext -> string,
    executorDataPath: string)

  /** A mutable string-to-string environment map, shared by reference. */
  class EnvMap {
    var entries: map<string, string>

    constructor (initial: map<string, string>)
      ensures entries == initial
    {
      entries := initial;
    }

    function Get(key: string): Option<string>
      reads this
    {
      Wrappers.Get(entries, key)
    }

    method Put(key: string, value: string)
      modifies this
      ensures entries == old(entries)[key := value]
    {
      entries := entries[key := value];
    }

    /** Encrypts the sensitive entries in place, as the environment encryption decides. */
    method EncryptInPlace(encryptEnvironments: map<string, string> -> map<string, string>)
      modifies this
      ensures entries == encryptEnvironments(old(entries))
    {
      entries := encryptEnvironments(entries);
    }
  }

  /** Launch parameters of a process executor. */
  class ProcessConfig {
    var environments: EnvMap?
    var jvmXmsMB: int
    var jvmXmxMB: int

    constructor ()
      ensures environments == null && jvmXmsMB == 0 && jvmXmxMB == 0
    {
      environments := null;
      jvmXmsMB := 0;
      jvmXmxMB := 0;
    }
  }

  /** Launch parameters of a pod: the volume mount path and the environment. */
  class PodConfig {
    var mountPath: string
    var environments: EnvMap?

    constructor (mountPath: string)
      ensures this.mountPath == mountPath && environments == null
    {
      this.mountPath := mountPath;
      environments := null;
    }
  }

  /** The orchestrator client; the builder only hands it on. */
  class ResourceManager {
    constructor ()
    {
    }
  }

  class ProcessJobCaller {
    const config: ProcessConfig

    constructor (config: ProcessConfig)
      ensures this.config == config
    {
      this.config := config;
    }
  }

  class K8sJobCaller {
    const podConfig: PodConfig
    const resourceManager: ResourceManager
    const resourceType: string

    constructor (podConfig: PodConfig, resourceManager: ResourceManager, resourceType: string)
      ensures this.podConfig == podConfig && this.resourceManager == resourceManager
      ensures this.resourceType == resourceType
    {
      this.podConfig := podConfig;
      this.resourceManager := resourceManager;
      this.resourceType := resourceType;
    }
  }

  /** How a file write ends: written in full, or failed, possibly leaving partial content behind. */
  datatype WriteOutcome = Written | Failed(partial: Option<string>)

  /** The files of the executor data directory (and anywhere else), by path. */
  class FileSystem {
    var files: map<string, string>

    constructor (files: map<string, string>)
      ensures this.files == files
    {
      this.files := files;
    }

    /** Writes `content` to `path`; the outcome is decided by the environment, not by the model. */
    method WriteStringToFile(path: string, content: string, outcome: WriteOutcome) returns (ok: bool)
      modifies this
      ensures ok <==> outcome.Written?
      ensures outcome.Written? ==> files == old(files)[path := content]
      ensures outcome.Failed? && outcome.partial.Some? ==> files == old(files)[path := outcome.partial.value]
      ensures outcome == Failed(None) ==> files == old(files)
    {
      match outcome
      case Written =>
        files := files[path := content];
        ok := true;
      case Failed(partial) =>
        if partial.Some? {
          files := files[path := partial.value];
        }
        ok := false;
    }

    /**
     * Removes `path` if present. It never throws: when the environment does not
     * let it delete (`deleted` false), the files stay as they were.
     */
    method DeleteQuietly(path: string, deleted: bool)
      modifies this
      ensures deleted ==> files == old(files) - {path}
      ensures !deleted ==> files == old(files)
    {
      if deleted {
        files := files - {path};
      }
    }
  }
}
