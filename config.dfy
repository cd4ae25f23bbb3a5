/** The three configuration values the hook reads once, at start-up, from its
    environment. The environment lookups and `parseInt` are inputs: an unset
    variable is `None`, and a `parseInt` that yields NaN is `None`. */
module Config {

  import opened Wrappers

  /** The dependency tag key used when PARENT_ENV_KEY is unset or empty. */
  const DefaultTagKey: string := "PM2_PARENT_APP"

  /** The pause between restarts used when CHILD_RESTART_DELAY_MS gives no
      usable (non-zero) integer. */
  const DefaultRestartDelayMs: int := 200

  datatype Settings = Settings(tagKey: string, ignoreManual: bool, restartDelayMs: int)

  /** `process.env.PARENT_ENV_KEY || "PM2_PARENT_APP"`: the empty string is
      falsy, so it selects the default just like an unset variable. */
  function TagKey(env: Option<string>): (key: string)
    ensures key != ""
    ensures env.Some? && env.value != "" ==> key == env.value
    ensures env.None? || env.value == "" ==> key == DefaultTagKey
  {
    if env.Some? && env.value != "" then env.value else DefaultTagKey
  }

  /** `process.env.IGNORE_MANUAL_RESTARTS === "true"`. */
  function IgnoreManual(env: Option<string>): (on: bool)
    ensures on ==> env.Some? && env.value == "true"
    ensures env.None? ==> !on
  {
    env == Some("true")
  }

  /** `parseInt(process.env.CHILD_RESTART_DELAY_MS, 10) || 200`: NaN and 0
      (also -0) are falsy; any other parsed integer, negative ones included,
      is kept as it is. */
  function RestartDelayMs(parsed: Option<int>): (ms: int)
    ensures ms != 0
    ensures parsed.Some? && parsed.value != 0 ==> ms == parsed.value
    ensures parsed.None? || parsed.value == 0 ==> ms == DefaultRestartDelayMs
  {
    if parsed.Some? && parsed.value != 0 then parsed.value else DefaultRestartDelayMs
  }

  /** The settings from PARENT_ENV_KEY, IGNORE_MANUAL_RESTARTS and the parsed
      CHILD_RESTART_DELAY_MS. */
  function LoadSettings(tagEnv: Option<string>, ignoreEnv: Option<string>, parsedDelay: Option<int>): (s: Settings)
    ensures s.tagKey != "" && s.restartDelayMs != 0
    ensures s.ignoreManual ==> ignoreEnv == Some("true")
  {
    Settings(TagKey(tagEnv), IgnoreManual(ignoreEnv), RestartDelayMs(parsedDelay))
  }

  /** Ignoring manual restarts is switched on by the exact string "true" and
      by nothing else: not "TRUE", "True", "1", "yes" or " true". */
  lemma IgnoreManualOnlyForExactTrue(env: Option<string>)
    ensures IgnoreManual(env) <==> env.Some? && env.value == "true"
    ensures !IgnoreManual(None)
    ensures !IgnoreManual(Some("TRUE")) && !IgnoreManual(Some("True"))
    ensures !IgnoreManual(Some("1")) && !IgnoreManual(Some("yes")) && !IgnoreManual(Some(" true"))
  {
  }

  /** With nothing configured the hook watches "PM2_PARENT_APP", cascades
      manual restarts too, and paces restarts by 200 ms. */
  lemma DefaultSettings()
    ensures LoadSettings(None, None, None) == Settings("PM2_PARENT_APP", false, 200)
  {
  }
}
