# Job caller construction and the "no default value" check rule, in Dafny

This project models two pieces of ODC, the OceanBase developer centre server:

- **`JobCallerBuilder`**, which prepares the launch of a task executor. For a
  pod (K8s) executor it takes the base environment from the environment
  factory. It adds the executor listen port (only when positive), the
  report-enabled flag decided by the monitor mode, the four encryption
  settings and the log directory. It then encrypts the map and attaches it to
  the pod config. For a process executor it encrypts the caller's environment
  map in place and writes the encrypted job context to `<dataPath>/<uuid>.enc`.
  If the write fails it deletes the file and fails the build. Otherwise it
  stores the encrypted path in the map and wraps that same map in a process
  config with the configured heap bounds.
- **`NoDefaultValueExists`**, a SQL check rule. It reports every column of a
  CREATE TABLE or ALTER TABLE that has no default value and whose data-type
  name is not in the allow-set, compared ignoring case. A null type name
  counts as allowed.

Files:

- `wrappers.dfy`: `Option`, `Result`, and `Get`, which is `Map.get` with `Option` standing for `null`.
- `decimal.dfy`: the decimal text of an `int`, which is what `String.valueOf` gives for the positive port, and its parser.
- `string_utils.dfy`: ASCII `equalsIgnoreCase`, `String.join`, and a split that inverts the join.
- `job_env_keys.dfy`: the environment-variable names.
- `job_caller_model.dfy`: the job context, the configuration records and the collaborators. It also holds the environment map (`EnvMap`, a class so that it can be shared by reference), the launch configs, the two caller kinds and the file system.
- `job_caller_builder.dfy`: the three build operations and their lemmas.
- `no_default_value_exists.dfy`: the check rule.

Collaborators whose code is not part of this model are inputs. They are
bundled in `JobServices` as uninterpreted functions, and every property holds
for every choice of them. They are: the environment factory, the listen-port
and monitor-mode readers of the job properties, the environment encryption,
the string encryption, JSON serialisation and the executor data path.
Configuration that the source reads from a global holder is passed as
explicit records (`JasyptEncryptorConfigProperties`, `TaskFrameworkProperties`).
The file write's outcome and the fresh uuid are also inputs.

## Notes on the source's behaviour

- A non-positive listen port leaves `ODC_EXECUTOR_PORT` as the environment factory set it, or absent if the factory did not set it.
- The job context is always written to a file. There is no size threshold.
- The key and salt used to encrypt the file content and the path are read back from the already-encrypted map. That map may hold no entry for them (`null`).

## Model

| member | source | states |
|---|---|---|
| `JobCallerBuilder.BuildK8sEnv` | server/odc-service/src/main/java/com/oceanbase/odc/service/task/caller/JobCallerBuilder.java:86-113 | the result satisfies `IsK8sEnv`: the port is the decimal text of the listen port exactly when it is positive, otherwise the factory's entry (or its absence); the report flag is "false" for PULL and "true" for every other or absent mode; the four encryption entries equal the configured algorithm, prefix, suffix and salt; every other key keeps the factory's value |
| `JobCallerBuilder.K8sEnvDetermined` | server/odc-service/src/main/java/com/oceanbase/odc/service/task/caller/JobCallerBuilder.java:87-112 | the description `IsK8sEnv` pins the environment down to one map, so "nothing else changes" is complete |
| `JobCallerBuilder.ReportFlag` | server/odc-service/src/main/java/com/oceanbase/odc/service/task/caller/JobCallerBuilder.java:97-102 | the flag is "false" if and only if the monitor mode is PULL, and "true" if and only if it is not |
| `JobCallerBuilder.BuildK8sJobCaller` | server/odc-service/src/main/java/com/oceanbase/odc/service/task/caller/JobCallerBuilder.java:115-125 | the pod config's environment becomes a fresh map equal to the encryption of the K8s environment with `ODC_LOG_DIRECTORY` set to the pod's mount path; the mount path is unchanged; the fresh caller holds the same pod config, resource manager and resource type |
| `JobCallerBuilder.BuildProcessCaller` | server/odc-service/src/main/java/com/oceanbase/odc/service/task/caller/JobCallerBuilder.java:50-78 | the map is encrypted in place first; on a failed write the build fails with the path `<dataPath>/<uuid>.enc` and its message, the map holds only the encryption, and the file at that path is gone when the quiet delete succeeds (otherwise the files are as the failed write left them); on success the file holds the encrypted JSON of the context, the map gains exactly `ODC_JOB_CONTEXT_FILE_PATH` holding the encrypted path (same key and salt), and the fresh process config shares the very same map and takes Xms/Xmx from the configured min/max memory |
| `JobCallerBuilder.ContextFileIdOfPath` | server/odc-service/src/main/java/com/oceanbase/odc/service/task/caller/JobCallerBuilder.java:56 | the context file path is the data path, "/", the uuid and ".enc": the uuid can be read back from it |
| `JobCallerBuilder.ContextFilePathInjective` | server/odc-service/src/main/java/com/oceanbase/odc/service/task/caller/JobCallerBuilder.java:56 | distinct uuids under one data path give distinct context file paths |
| `JobCallerBuilder.ExecutorRecoversContext` | server/odc-service/src/main/java/com/oceanbase/odc/service/task/caller/JobCallerBuilder.java:56-68 | with a decryption that inverts the encryption, the state a successful process build leaves lets the executor decrypt the path entry to the file's path and the file's content to the context's JSON |
| `JobCallerModel.EnvMap.EncryptInPlace` | server/odc-service/src/main/java/com/oceanbase/odc/service/task/caller/JobCallerBuilder.java:51 | the map's entries become the environment encryption of the old entries |
| `JobCallerModel.EnvMap.Put` | server/odc-service/src/main/java/com/oceanbase/odc/service/task/caller/JobCallerBuilder.java:66-68 | one key is set and every other entry is kept |
| `JobCallerModel.FileSystem.WriteStringToFile` | server/odc-service/src/main/java/com/oceanbase/odc/service/task/caller/JobCallerBuilder.java:58-61 | a write succeeds exactly for the `Written` outcome and then stores the content; a failed write may leave partial content or nothing |
| `JobCallerModel.FileSystem.DeleteQuietly` | server/odc-service/src/main/java/com/oceanbase/odc/service/task/caller/JobCallerBuilder.java:63 | the delete never throws; when it succeeds the path is absent afterwards, when it does not the files are unchanged; every other file is kept either way |
| `Decimal.DecimalString` | server/odc-service/src/main/java/com/oceanbase/odc/service/task/caller/JobCallerBuilder.java:94 | the port text is non-empty, all digits, with no leading zero for a positive number |
| `Decimal.ParseDecimalString` | server/odc-service/src/main/java/com/oceanbase/odc/service/task/caller/JobCallerBuilder.java:94 | parsing the port text gives the port back |
| `Decimal.DecimalStringInjective` | server/odc-service/src/main/java/com/oceanbase/odc/service/task/caller/JobCallerBuilder.java:94 | different ports have different texts |
| `NoDefaultValueExists.Rule.GetType` | server/odc-service/src/main/java/com/oceanbase/odc/service/sqlcheck/rule/NoDefaultValueExists.java:58-60 | the rule type is NO_DEFAULT_VALUE_EXISTS |
| `NoDefaultValueExists.Rule.GetSupportsDialectTypes` | server/odc-service/src/main/java/com/oceanbase/odc/service/sqlcheck/rule/NoDefaultValueExists.java:73-76 | the list is exactly OB_MYSQL, MYSQL, OB_ORACLE, ODP_SHARDING_OB_MYSQL, ORACLE in that order: five distinct dialects, every listed dialect and no other |
| `NoDefaultValueExists.Rule.ContainsIgnoreCase` | server/odc-service/src/main/java/com/oceanbase/odc/service/sqlcheck/rule/NoDefaultValueExists.java:78-83 | true exactly when the name is null or some allowed type equals it ignoring case |
| `NoDefaultValueExists.AnyMatchIgnoreCase` | server/odc-service/src/main/java/com/oceanbase/odc/service/sqlcheck/rule/NoDefaultValueExists.java:82 | the scan is true exactly when some entry equals the name ignoring case |
| `StringUtils.EqualsIgnoreCaseIffFoldsEqual` | server/odc-service/src/main/java/com/oceanbase/odc/service/sqlcheck/rule/NoDefaultValueExists.java:82 | the character-wise case-insensitive comparison is equality of the case-folded strings |
| `StringUtils.EqualsIgnoreCaseReflexive` | server/odc-service/src/main/java/com/oceanbase/odc/service/sqlcheck/rule/NoDefaultValueExists.java:82 | every name equals itself ignoring case |
| `StringUtils.EqualsIgnoreCaseSymmetric` | server/odc-service/src/main/java/com/oceanbase/odc/service/sqlcheck/rule/NoDefaultValueExists.java:82 | the comparison does not depend on argument order |
| `StringUtils.EqualsIgnoreCaseTransitive` | server/odc-service/src/main/java/com/oceanbase/odc/service/sqlcheck/rule/NoDefaultValueExists.java:82 | the comparison is transitive |
| `NoDefaultValueExists.GetDataTypeName` | server/odc-service/src/main/java/com/oceanbase/odc/service/sqlcheck/rule/NoDefaultValueExists.java:101-103 | the name is null exactly when the data type or its name is null, and otherwise is the data type's name |
| `NoDefaultValueExists.Rule.FlaggedIff` | server/odc-service/src/main/java/com/oceanbase/odc/service/sqlcheck/rule/NoDefaultValueExists.java:86-92 | a column is kept exactly when it has no default (null attributes or a null default) and its type name is not allowed |
| `NoDefaultValueExists.Rule.FlaggedHasDataTypeName` | server/odc-service/src/main/java/com/oceanbase/odc/service/sqlcheck/rule/NoDefaultValueExists.java:97 | a kept column has a data type with a name, so its text can be reported |
| `NoDefaultValueExists.Rule.Violation` | server/odc-service/src/main/java/com/oceanbase/odc/service/sqlcheck/rule/NoDefaultValueExists.java:92-97 | a violation carries the statement text, the column, the rule type and the arguments [data-type text, allowed-types text] |
| `NoDefaultValueExists.Rule.AllowedTypesTextRecoverable` | server/odc-service/src/main/java/com/oceanbase/odc/service/sqlcheck/rule/NoDefaultValueExists.java:93-96 | the allowed-types argument is "N/A" for an empty allow-set; otherwise the entries joined with "," can be split back into the entries when none contains a comma |
| `StringUtils.SplitJoin` | server/odc-service/src/main/java/com/oceanbase/odc/service/sqlcheck/rule/NoDefaultValueExists.java:95 | splitting a join at its one-character separator gives the elements back |
| `NoDefaultValueExists.Rule.FlaggedColumns` | server/odc-service/src/main/java/com/oceanbase/odc/service/sqlcheck/rule/NoDefaultValueExists.java:86-92 | the filter keeps at most as many columns as the input has, all of them flagged |
| `NoDefaultValueExists.Rule.FlaggedColumnsExact` | server/odc-service/src/main/java/com/oceanbase/odc/service/sqlcheck/rule/NoDefaultValueExists.java:86-92 | the kept columns form a subsequence of the input; a column of the input is kept if and only if it is flagged; and each flagged column is kept as many times as it occurs in the input, every other column never |
| `NoDefaultValueExists.Rule.Builds` | server/odc-service/src/main/java/com/oceanbase/odc/service/sqlcheck/rule/NoDefaultValueExists.java:85-99 | at most one violation per input column; each is the violation of a flagged input column |
| `NoDefaultValueExists.Rule.BuildsIsMapOfFlagged` | server/odc-service/src/main/java/com/oceanbase/odc/service/sqlcheck/rule/NoDefaultValueExists.java:85-98 | the violations are exactly the kept columns' violations, one each, in input order |
| `NoDefaultValueExists.Rule.Check` | server/odc-service/src/main/java/com/oceanbase/odc/service/sqlcheck/rule/NoDefaultValueExists.java:63-70 | a statement that is neither CREATE TABLE nor ALTER TABLE yields no violation; the other two are checked over their columns with their text |
| `NoDefaultValueExists.Rule.NullTypeNameNeverReported` | server/odc-service/src/main/java/com/oceanbase/odc/service/sqlcheck/rule/NoDefaultValueExists.java:78-81 | a column whose data type or type name is null is never reported |
| `NoDefaultValueExists.Rule.AllowedTypeNeverReported` | server/odc-service/src/main/java/com/oceanbase/odc/service/sqlcheck/rule/NoDefaultValueExists.java:82-91 | a column whose type name equals an allowed type ignoring case is never reported |
| `NoDefaultValueExists.Rule.DefaultValueNeverReported` | server/odc-service/src/main/java/com/oceanbase/odc/service/sqlcheck/rule/NoDefaultValueExists.java:87-91 | a column with a default value is never reported |
| `NoDefaultValueExists.Rule.FlaggedColumnReported` | server/odc-service/src/main/java/com/oceanbase/odc/service/sqlcheck/rule/NoDefaultValueExists.java:85-98 | every input column without a default whose type name is not allowed is reported |

## Left out

- File I/O and the uuid: the outcome of `writeStringToFile`, whether `deleteQuietly` manages to delete, and the fresh id are inputs, and the file system is a map from path to content. The charset and the exception's cause are not modelled.
- BuildProcessCaller: only the file write can fail. In the source, an exception from the encryption or the JSON serialisation inside the same `try` would also delete the file and fail the build; both are total functions here.
- Encryption (Jasypt), JSON serialisation, the environment factory, the job-property readers and the executor data path: their code is not part of this model, so they are uninterpreted functions. No property depends on what they compute, except that `ExecutorRecoversContext` assumes a decryption that inverts the encryption (`Inverts`). For that reason the model does not show that no plaintext secret reaches the environment, which depends on what `encryptEnvironments` does.
- The global configuration holder: its values are explicit parameters.
- Null values in the environment map, such as a null algorithm from the encryptor configuration: configuration strings are non-null in the model.
- The values of the environment-key constants: they are not part of this model, so each key is spelled as its constant's name. Only their distinctness is used.
- What the callers do once built (start, stop, status), the resource manager, and the pod config's other fields: the callers are records of what they are given.
- The SQL parser's statement tree and the helper that extracts the column definitions of an ALTER TABLE: a statement is modelled as its text plus the column definitions it carries. The unused check context is not modelled.
- `buildViolation`: a violation is the record of its four inputs.
- `equalsIgnoreCase` folds ASCII letters only. Full Unicode case folding is not modelled.
- The allow-set is a sequence in the set's iteration order. Java's iteration order for the join is not modelled.
- The other rule types and dialects of the source's enumerations: each stands under one catch-all constructor.
