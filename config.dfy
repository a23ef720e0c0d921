/**
 * The service's settings. API_TOKEN and OPENAI_API_KEY come from the process
 * environment, so they are a value passed to the operations that read them;
 * the directory names and the upload limit are fixed constants.
 */
module Config {
  import opened Common

  /** The environment-dependent settings: the bearer secret and the model API key. */
  datatype Settings = Settings(apiToken: string, openaiApiKey: Option<string>)

  /** The values used when neither environment variable is set. */
  const DefaultSettings := Settings("your-api-token", Some("api-key"))

  const UploadDir := "uploads"

  const OutputDir := "outputs"

  /** 20 MB, the largest upload accepted. */
  const MaxUploadSize: nat := 20 * 1024 * 1024
}
