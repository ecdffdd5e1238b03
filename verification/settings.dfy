/** Startup configuration: the environment variables the server reads once,
    coerced the way JavaScript's `||`, `!` and `===` see them. */
module Settings {

  /** The process environment, variable name to value. */
  type Env = map<string, string>

  /** Object key signed when the request names none. */
  const DefaultVideoKey: string := "the-last-paideia.mp4"

  /** The four Cloudflare R2 settings; an empty string stands for unset. */
  datatype R2Settings = R2Settings(
    accountId: string,
    accessKeyId: string,
    secretAccessKey: string,
    bucketName: string)
  {
    /** All four settings are truthy; otherwise the local fallback is served. */
    predicate Complete() {
      accountId != "" && accessKeyId != "" && secretAccessKey != "" && bucketName != ""
    }
  }

  /** Everything the access-control layer depends on, fixed at startup. */
  datatype Config = Config(
    isPublic: bool,
    isProduction: bool,
    passwordHash: string,
    r2: R2Settings,
    videoKey: string)
  {
    /** `PASSWORD_HASH` is truthy. */
    predicate HasPasswordHash() {
      passwordHash != ""
    }
  }

  /** `process.env[name]` where unset and empty read alike: both are falsy. */
  function Var(env: Env, name: string): (v: string)
    ensures v != "" <==> name in env && env[name] != ""
    ensures v != "" ==> v == env[name]
  {
    if name in env then env[name] else ""
  }

  /** Reads the configuration from the environment. */
  function LoadConfig(env: Env): (cfg: Config)
    ensures cfg.isPublic <==> "IS_PUBLIC" in env && env["IS_PUBLIC"] == "true"
    ensures cfg.isProduction <==> "NODE_ENV" in env && env["NODE_ENV"] == "production"
    ensures cfg.HasPasswordHash() <==> "PASSWORD_HASH" in env && env["PASSWORD_HASH"] != ""
    ensures cfg.HasPasswordHash() ==> cfg.passwordHash == env["PASSWORD_HASH"]
    ensures cfg.r2.Complete() <==>
              && "R2_ACCOUNT_ID" in env && env["R2_ACCOUNT_ID"] != ""
              && "R2_ACCESS_KEY_ID" in env && env["R2_ACCESS_KEY_ID"] != ""
              && "R2_SECRET_ACCESS_KEY" in env && env["R2_SECRET_ACCESS_KEY"] != ""
              && "R2_BUCKET_NAME" in env && env["R2_BUCKET_NAME"] != ""
    ensures cfg.r2.Complete() ==> cfg.r2.bucketName == env["R2_BUCKET_NAME"]
    ensures "VIDEO_KEY" in env && env["VIDEO_KEY"] != "" ==> cfg.videoKey == env["VIDEO_KEY"]
    ensures !("VIDEO_KEY" in env && env["VIDEO_KEY"] != "") ==> cfg.videoKey == DefaultVideoKey
    ensures cfg.videoKey != ""
  {
    var key := Var(env, "VIDEO_KEY");
    Config(
      isPublic := Var(env, "IS_PUBLIC") == "true",
      isProduction := Var(env, "NODE_ENV") == "production",
      passwordHash := Var(env, "PASSWORD_HASH"),
      r2 := R2Settings(
        Var(env, "R2_ACCOUNT_ID"),
        Var(env, "R2_ACCESS_KEY_ID"),
        Var(env, "R2_SECRET_ACCESS_KEY"),
        Var(env, "R2_BUCKET_NAME")),
      videoKey := if key != "" then key else DefaultVideoKey)
  }
}
