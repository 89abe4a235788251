/**
 * Building a job caller: the environment handed to a launched executor, the
 * encrypted job-context file of a process executor, and the launch config
 * and caller for either backend.
 */
module JobCallerBuilder {
  import opened Wrappers
  import opened Decimal
  import opened JobEnvKeyConstants
  import opened JobCallerModel

  /** Why a build fails: the job context file could not be written. */
  datatype BuildError = ContextFileWriteFailed(path: string, message: string)

  /** The context file path: the data directory, "/", the fresh id, ".enc". */
  function ContextFilePath(dataPath: string, uuid: string): string
  {
    dataPath + "/" + uuid + ".enc"
  }

  /** The id a context file path was made from, if it has the shape of one under `dataPath`. */
  function ContextFileId(dataPath: string, path: string): Option<string>
  {
    var head := dataPath + "/";
    if |path| >= |head| + 4 && path[..|head|] == head && path[|path| - 4..] == ".enc"
    then Some(path[|head|..|path| - 4])
    else None
  }

  /** The id can be read back from the path. */
  lemma ContextFileIdOfPath(dataPath: string, uuid: string)
    ensures ContextFileId(dataPath, ContextFilePath(dataPath, uuid)) == Some(uuid)
  {
  }

  /** Fresh ids under one data directory never collide on a path. */
  lemma ContextFilePathInjective(dataPath: string, u1: string, u2: string)
    requires u1 != u2
    ensures ContextFilePath(dataPath, u1) != ContextFilePath(dataPath, u2)
  {
    ContextFileIdOfPath(dataPath, u1);
    ContextFileIdOfPath(dataPath, u2);
  }

  function WriteFailureMessage(path: string): string
  {
    "Failed to write job context to file: " + path
  }

  /** The report flag decided by the monitor mode. */
  function ReportFlag(mode: Option<TaskMonitorMode>): (flag: string)
    ensures flag == "false" <==> mode == Some(Pull)
    ensures flag == "true" <==> mode != Some(Pull)
  {
    if mode == Some(Pull) then "false" else "true"
  }

  /**
   * `env` is what building the K8s environment makes of the factory map `base`:
   * the port only when positive, the report flag, the four encryption
   * entries, and every other key as the factory produced it.
   */
  ghost predicate IsK8sEnv(env: map<string, string>, base: map<string, string>, port: int,
                           mode: Option<TaskMonitorMode>, jasypt: JasyptEncryptorConfigProperties)
  {
    && Get(env, ExecutorPort) == (if port > 0 then Some(DecimalString(port)) else Get(base, ExecutorPort))
    && Get(env, ReportEnabled) == Some(ReportFlag(mode))
    && Get(env, EncryptionAlgorithm) == Some(jasypt.algorithm)
    && Get(env, EncryptionPrefix) == Some(jasypt.prefix)
    && Get(env, EncryptionSuffix) == Some(jasypt.suffix)
    && Get(env, EncryptionSalt) == Some(jasypt.salt)
    && forall k :: k !in K8sEnvKeys ==> Get(env, k) == Get(base, k)
  }

  /** The description above leaves no freedom: it determines the map. */
  lemma K8sEnvDetermined(a: map<string, string>, b: map<string, string>, base: map<string, string>,
                         port: int, mode: Option<TaskMonitorMode>, jasypt: JasyptEncryptorConfigProperties)
    requires IsK8sEnv(a, base, port, mode, jasypt) && IsK8sEnv(b, base, port, mode, jasypt)
    ensures a == b
  {
    forall k
      ensures Get(a, k) == Get(b, k)
    {
      if k !in K8sEnvKeys {
        assert Get(a, k) == Get(base, k) == Get(b, k);
      }
    }
    forall k | k in a
      ensures k in b && a[k] == b[k]
    {
      assert Get(a, k) == Get(b, k);
    }
    forall k | k in b
      ensures k in a
    {
      assert Get(a, k) == Get(b, k);
    }
  }

  /** `buildK8sEnv`: the factory's K8s map with the port, the report flag and the encryption entries put on it. */
  method BuildK8sEnv(context: JobContext, services: JobServices, jasypt: JasyptEncryptorConfigProperties)
    returns (env: map<string, string>)
    ensures IsK8sEnv(env, services.environmentFactory(context, K8s),
                     services.executorListenPort(context.jobProperties),
                     services.monitorMode(context.jobProperties), jasypt)
  {
    env := services.environmentFactory(context, K8s);
    ghost var base := env;
    var jobProperties := context.jobProperties;

    var executorListenPort := services.executorListenPort(jobProperties);
    if executorListenPort > 0 {
      env := env[ExecutorPort := DecimalString(executorListenPort)];
    }

    var monitorMode := services.monitorMode(jobProperties);
    if monitorMode == Some(Pull) {
      env := env[ReportEnabled := "false"];
    } else {
      env := env[ReportEnabled := "true"];
    }

    env := env[EncryptionAlgorithm := jasypt.algorithm];
    env := env[EncryptionPrefix := jasypt.prefix];
    env := env[EncryptionSuffix := jasypt.suffix];
    env := env[EncryptionSalt := jasypt.salt];
  }

  /**
   * `buildK8sJobCaller`: the K8s environment plus the log directory, encrypted,
   * becomes the pod config's environment; the caller holds what it was given.
   */
  method BuildK8sJobCaller(podConfig: PodConfig, context: JobContext, resourceManager: ResourceManager,
                           resourceType: string, services: JobServices, jasypt: JasyptEncryptorConfigProperties)
    returns (caller: K8sJobCaller, ghost plain: map<string, string>)
    modifies podConfig
    ensures IsK8sEnv(plain, services.environmentFactory(context, K8s),
                     services.executorListenPort(context.jobProperties),
                     services.monitorMode(context.jobProperties), jasypt)
    ensures podConfig.mountPath == old(podConfig.mountPath)
    ensures podConfig.environments != null && fresh(podConfig.environments)
    ensures podConfig.environments.entries ==
            services.encryptEnvironments(plain[LogDirectory := podConfig.mountPath])
    ensures fresh(caller)
    ensures caller.podConfig == podConfig && caller.resourceManager == resourceManager
    ensures caller.resourceType == resourceType
  {
    var env := BuildK8sEnv(context, services, jasypt);
    plain := env;
    var environments := new EnvMap(env);
    environments.Put(LogDirectory, podConfig.mountPath);
    environments.EncryptInPlace(services.encryptEnvironments);
    podConfig.environments := environments;
    caller := new K8sJobCaller(podConfig, resourceManager, resourceType);
  }

  /** The string encryption with the key and salt an environment map holds. */
  function EncryptWith(services: JobServices, env: map<string, string>, plaintext: string): string
  {
    services.encrypt(Get(env, EncryptKey), Get(env, EncryptSalt), plaintext)
  }

  /**
   * `buildProcessCaller`: encrypts the environment in place, writes the
   * encrypted job context to `<dataPath>/<uuid>.enc`, then stores the encrypted
   * path in the environment and wraps the very same map in a process config.
   * A failed write deletes the file (as far as the delete succeeds, which
   * `deleted` decides) and fails the build with the path.
   */
  method BuildProcessCaller(context: JobContext, environments: EnvMap, services: JobServices,
                            fileSystem: FileSystem, uuid: string, outcome: WriteOutcome,
                            deleted: bool, taskFramework: TaskFrameworkProperties)
    returns (r: Result<ProcessJobCaller, BuildError>)
    modifies environments, fileSystem
    ensures var encrypted := services.encryptEnvironments(old(environments.entries));
            var path := ContextFilePath(services.executorDataPath, uuid);
            && (outcome.Failed? ==>
                  && r == Failure(ContextFileWriteFailed(path, WriteFailureMessage(path)))
                  && (deleted ==> fileSystem.files == old(fileSystem.files) - {path})
                  && (!deleted ==>
                        fileSystem.files ==
                        (if outcome.partial.Some? then old(fileSystem.files)[path := outcome.partial.value]
                         else old(fileSystem.files)))
                  && environments.entries == encrypted)
            && (outcome.Written? ==>
                  && r.Success?
                  && fileSystem.files ==
                     old(fileSystem.files)[path := EncryptWith(services, encrypted, services.toJson(context))]
                  && environments.entries == encrypted[JobContextFilePath := EncryptWith(services, encrypted, path)])
    ensures r.Success? ==>
              && fresh(r.value) && fresh(r.value.config)
              && r.value.config.environments == environments
              && r.value.config.jvmXmsMB == taskFramework.jobProcessMinMemorySizeInMB
              && r.value.config.jvmXmxMB == taskFramework.jobProcessMaxMemorySizeInMB
  {
    environments.EncryptInPlace(services.encryptEnvironments);
    var jobContextFilePath := ContextFilePath(services.executorDataPath, uuid);
    var content := services.encrypt(environments.Get(EncryptKey), environments.Get(EncryptSalt),
                                    services.toJson(context));
    var written := fileSystem.WriteStringToFile(jobContextFilePath, content, outcome);
    if !written {
      fileSystem.DeleteQuietly(jobContextFilePath, deleted);
      return Failure(ContextFileWriteFailed(jobContextFilePath, WriteFailureMessage(jobContextFilePath)));
    }
    environments.Put(JobContextFilePath,
      services.encrypt(environments.Get(EncryptKey), environments.Get(EncryptSalt), jobContextFilePath));
    var config := new ProcessConfig();
    config.environments := environments;
    config.jvmXmsMB := taskFramework.jobProcessMinMemorySizeInMB;
    config.jvmXmxMB := taskFramework.jobProcessMaxMemorySizeInMB;
    var caller := new ProcessJobCaller(config);
    return Success(caller);
  }

  /** `decrypt` undoes `encrypt` for every key and salt. */
  ghost predicate Inverts(services: JobServices, decrypt: (Option<string>, Option<string>, string) -> string)
  {
    forall key, salt, plaintext :: decrypt(key, salt, services.encrypt(key, salt, plaintext)) == plaintext
  }

  /**
   * After a successful process build, an executor holding the matching decryption
   * finds the context file from its environment alone and reads back the
   * serialised job context from it.
   */
  lemma ExecutorRecoversContext(services: JobServices, decrypt: (Option<string>, Option<string>, string) -> string,
                                encrypted: map<string, string>, files: map<string, string>,
                                uuid: string, context: JobContext)
    requires Inverts(services, decrypt)
    requires var path := ContextFilePath(services.executorDataPath, uuid);
             path in files && files[path] == EncryptWith(services, encrypted, services.toJson(context))
    ensures var path := ContextFilePath(services.executorDataPath, uuid);
            var env := encrypted[JobContextFilePath := EncryptWith(services, encrypted, path)];
            var found := decrypt(Get(env, EncryptKey), Get(env, EncryptSalt), env[JobContextFilePath]);
            && found == path
            && found in files
            && decrypt(Get(env, EncryptKey), Get(env, EncryptSalt), files[found]) == services.toJson(context)
  {
  }
}
