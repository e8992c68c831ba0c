/**
 * The settings the searches read (job_config.py): which platforms are
 * enabled, which AI service to use and which model each service runs.
 * The process environment is a map from variable name to value.
 */
module Config {
  import opened Wrappers

  /** `ENABLED_PLATFORMS`: every platform is switched on. */
  const ENABLED_PLATFORMS: map<string, bool> :=
    map["linkedin" := true, "indeed" := true, "glassdoor" := true, "ziprecruiter" := true]

  /** `AI_MODELS`: the model each service runs. */
  const AI_MODELS: map<string, string> :=
    map["openai" := "gpt-4", "anthropic" := "claude-3-sonnet-20240229", "google" := "gemini-pro"]

  const AI_SERVICE_VAR := "AI_SERVICE"
  const DEFAULT_SERVICE := "openai"

  /** The key variables looked at, in the order they are looked at, with the service each selects. */
  const DETECTION_ORDER: seq<(string, string)> :=
    [("OPENAI_API_KEY", "openai"), ("ANTHROPIC_API_KEY", "anthropic"), ("GOOGLE_AI_API_KEY", "google")]

  /** `os.getenv(name)` is truthy: the variable exists and is not empty. */
  predicate IsSet(env: map<string, string>, name: string) {
    name in env && env[name] != ""
  }

  /** The `AI_SERVICE` setting: the variable's value when it is set, otherwise auto-detection. */
  function SelectService(env: map<string, string>): string {
    if IsSet(env, AI_SERVICE_VAR) then env[AI_SERVICE_VAR]
    else if IsSet(env, "OPENAI_API_KEY") then "openai"
    else if IsSet(env, "ANTHROPIC_API_KEY") then "anthropic"
    else if IsSet(env, "GOOGLE_AI_API_KEY") then "google"
    else DEFAULT_SERVICE
  }

  /** The service of the first variable in `order` that is set, if any. */
  function FirstConfigured(env: map<string, string>, order: seq<(string, string)>): Option<string> {
    if order == [] then None
    else if IsSet(env, order[0].0) then Some(order[0].1)
    else FirstConfigured(env, order[1..])
  }

  /**
   * `FirstConfigured` gives the service of a set variable no earlier
   * variable precedes, and gives nothing only when none is set.
   */
  lemma {:induction false} FirstConfiguredIsFirst(env: map<string, string>, order: seq<(string, string)>)
    ensures FirstConfigured(env, order).None? <==> forall k :: 0 <= k < |order| ==> !IsSet(env, order[k].0)
    ensures FirstConfigured(env, order).Some? ==>
              exists k :: 0 <= k < |order| && IsSet(env, order[k].0) && FirstConfigured(env, order).value == order[k].1
                          && forall m :: 0 <= m < k ==> !IsSet(env, order[m].0)
  {
    if order != [] {
      FirstConfiguredIsFirst(env, order[1..]);
      if !IsSet(env, order[0].0) && FirstConfigured(env, order).Some? {
        var k :| 0 <= k < |order[1..]| && IsSet(env, order[1..][k].0)
                 && FirstConfigured(env, order[1..]).value == order[1..][k].1
                 && forall m :: 0 <= m < k ==> !IsSet(env, order[1..][m].0);
        assert IsSet(env, order[k + 1].0) && FirstConfigured(env, order).value == order[k + 1].1;
        assert forall m :: 0 <= m < k + 1 ==> !IsSet(env, order[m].0) by {
          forall m | 0 <= m < k + 1 ensures !IsSet(env, order[m].0) {
            if m > 0 {
              assert order[m] == order[1..][m - 1];
            }
          }
        }
      }
    }
  }

  /**
   * A non-empty `AI_SERVICE` is used verbatim; otherwise the service is that
   * of the first key variable set, in the detection order, and "openai"
   * when none is.
   */
  lemma SelectServiceFollowsOrder(env: map<string, string>)
    ensures SelectService(env) ==
              if IsSet(env, AI_SERVICE_VAR) then env[AI_SERVICE_VAR]
              else FirstConfigured(env, DETECTION_ORDER).GetOr(DEFAULT_SERVICE)
  {
    var o1 := DETECTION_ORDER[1..];
    var o2 := o1[1..];
    assert DETECTION_ORDER[0] == ("OPENAI_API_KEY", "openai");
    assert o1[0] == ("ANTHROPIC_API_KEY", "anthropic") && o2 == [("GOOGLE_AI_API_KEY", "google")];
    assert FirstConfigured(env, o2) == if IsSet(env, "GOOGLE_AI_API_KEY") then Some("google") else None;
    assert FirstConfigured(env, o1) ==
      if IsSet(env, "ANTHROPIC_API_KEY") then Some("anthropic") else FirstConfigured(env, o2);
    assert FirstConfigured(env, DETECTION_ORDER) ==
      if IsSet(env, "OPENAI_API_KEY") then Some("openai") else FirstConfigured(env, o1);
  }

  /** The auto-detection priority, each outcome with both directions. */
  lemma DetectionPriority(env: map<string, string>)
    requires !IsSet(env, AI_SERVICE_VAR)
    ensures SelectService(env) == "anthropic" <==> !IsSet(env, "OPENAI_API_KEY") && IsSet(env, "ANTHROPIC_API_KEY")
    ensures SelectService(env) == "google" <==>
              !IsSet(env, "OPENAI_API_KEY") && !IsSet(env, "ANTHROPIC_API_KEY") && IsSet(env, "GOOGLE_AI_API_KEY")
    ensures SelectService(env) == "openai" <==>
              IsSet(env, "OPENAI_API_KEY")
              || (!IsSet(env, "ANTHROPIC_API_KEY") && !IsSet(env, "GOOGLE_AI_API_KEY"))
  {
  }

  /** An auto-detected service always has a model in `AI_MODELS`. */
  lemma DetectedServiceHasModel(env: map<string, string>)
    requires !IsSet(env, AI_SERVICE_VAR)
    ensures SelectService(env) in AI_MODELS
  {
  }

  /** Only `AI_SERVICE` and the three key variables decide the service. */
  lemma SelectServiceReadsFourVariables(env: map<string, string>, env': map<string, string>)
    requires IsSet(env, AI_SERVICE_VAR) == IsSet(env', AI_SERVICE_VAR)
    requires IsSet(env, AI_SERVICE_VAR) ==> env[AI_SERVICE_VAR] == env'[AI_SERVICE_VAR]
    requires forall k :: 0 <= k < |DETECTION_ORDER| ==> IsSet(env, DETECTION_ORDER[k].0) == IsSet(env', DETECTION_ORDER[k].0)
    ensures SelectService(env) == SelectService(env')
  {
    assert IsSet(env, DETECTION_ORDER[0].0) == IsSet(env', DETECTION_ORDER[0].0);
    assert IsSet(env, DETECTION_ORDER[1].0) == IsSet(env', DETECTION_ORDER[1].0);
    assert IsSet(env, DETECTION_ORDER[2].0) == IsSet(env', DETECTION_ORDER[2].0);
  }
}
