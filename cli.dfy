/** The runtime config of the command-line entry point: the defaults of
    `create_default_config` and their shallow merge with the loaded config. */
module Cli {
  import opened Wrappers
  import opened Values
  import opened Oracles
  import opened QualityGate

  /** `create_default_config()`. */
  function DefaultConfig(): (r: Config)
    ensures r.Keys == {"success_threshold", "politeness_delay_seconds", "selenium", "debug"}
    ensures r["success_threshold"] == Num(0.5) && r["politeness_delay_seconds"] == Num(2.0)
    ensures r["selenium"].Dict? && r["selenium"].entries.Keys == {"headless", "save_screenshots", "sleep_after_load", "wait_seconds"}
    ensures r["debug"] == Dict(map["save_html" := Bool(false)])
  {
    map[
      "success_threshold" := Num(0.5),
      "politeness_delay_seconds" := Num(2.0),
      "selenium" := Dict(map[
        "headless" := Bool(false),
        "save_screenshots" := Bool(true),
        "sleep_after_load" := Num(3.0),
        "wait_seconds" := Num(15.0)]),
      "debug" := Dict(map["save_html" := Bool(false)])]
  }

  /** The defaults set a 0.5 threshold and no API endpoint. */
  lemma DefaultConfigFacts(eng: Engine)
    ensures DefaultConfig().Keys == {"success_threshold", "politeness_delay_seconds", "selenium", "debug"}
    ensures ThresholdOf(DefaultConfig(), eng) == Some(0.5)
    ensures "api_endpoint" !in DefaultConfig()
  {
  }

  /** `{**defaults, **user}`: every top-level key takes the user's value when
      the user has the key and the default's otherwise. */
  function MergeConfig(defaults: Config, user: Config): (r: Config)
    ensures r.Keys == defaults.Keys + user.Keys
    ensures forall k :: k in user ==> r[k] == user[k]
    ensures forall k :: k in defaults && k !in user ==> r[k] == defaults[k]
  {
    defaults + user
  }

  /** A nested dict of the user's replaces the default's whole: a user
      `selenium` dict that omits `wait_seconds` leaves no `wait_seconds`. */
  lemma NestedDictReplacedWhole(user: Config, sel: map<string, Value>)
    requires "selenium" in user && user["selenium"] == Dict(sel)
    ensures MergeConfig(DefaultConfig(), user)["selenium"] == Dict(sel)
    ensures "wait_seconds" !in sel ==>
      "wait_seconds" !in MergeConfig(DefaultConfig(), user)["selenium"].entries
  {
  }

  /** After the merge the threshold is the user's when given and 0.5
      otherwise, and the API is configured exactly when the user configured it. */
  lemma MergedSettings(user: Config, eng: Engine)
    ensures "success_threshold" !in user ==> ThresholdOf(MergeConfig(DefaultConfig(), user), eng) == Some(0.5)
    ensures "success_threshold" in user ==> ThresholdOf(MergeConfig(DefaultConfig(), user), eng) == ThresholdOf(user, eng)
    ensures ("api_endpoint" in MergeConfig(DefaultConfig(), user)) <==> ("api_endpoint" in user)
  {
  }
}
