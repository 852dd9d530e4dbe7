/** The process environment the service reads once at start-up. */
module Env {
  import opened Wrappers

  /** `OPENWEATHER_API_KEY`, `CORS_ORIGIN` and `NODE_ENV`; `None` is an
      unset variable. */
  datatype Config = Config(apiKey: Option<string>, corsOrigin: Option<string>, nodeEnv: Option<string>)

  /** `!API_KEY`: an unset or empty key counts as missing. */
  predicate KeyMissing(cfg: Config) {
    cfg.apiKey.None? || cfg.apiKey.value == ""
  }
}
