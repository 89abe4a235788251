/**
 * The environment-variable names shared by the builder and the executor.
 * Only their distinctness matters to the model; each is spelled as the
 * constant that names it.
 */
module JobEnvKeyConstants {
  const ExecutorPort: string := "ODC_EXECUTOR_PORT"
  const ReportEnabled: string := "REPORT_ENABLED"
  const EncryptionAlgorithm: string := "ODC_PROPERTY_ENCRYPTION_ALGORITHM"
  const EncryptionPrefix: string := "ODC_PROPERTY_ENCRYPTION_PREFIX"
  const EncryptionSuffix: string := "ODC_PROPERTY_ENCRYPTION_SUFFIX"
  const EncryptionSalt: string := "ODC_PROPERTY_ENCRYPTION_SALT"
  const LogDirectory: string := "ODC_LOG_DIRECTORY"
  const EncryptKey: string := "ENCRYPT_KEY"
  const EncryptSalt: string := "ENCRYPT_SALT"
  const JobContextFilePath: string := "ODC_JOB_CONTEXT_FILE_PATH"

  /** The keys that building the K8s environment may set over the factory's map. */
  const K8sEnvKeys: set<string> :=
    {ExecutorPort, ReportEnabled, EncryptionAlgorithm, EncryptionPrefix, EncryptionSuffix, EncryptionSalt}
}
