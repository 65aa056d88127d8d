/** The agent's settings: the values read from the environment and the check
    that the required ones are present. */
module Config {
  import opened Wrappers
  import opened Strings

  /** The variables that must be set, in the order they are checked. */
  const RequiredNames: seq<string> := ["OPENAI_API_KEY", "CALCOM_API_KEY", "USER_EMAIL"]

  const MissingPrefix := "Missing required configuration: "

  /** The attribute names the `Settings` class declares. Reading any other
      attribute of the instance raises `AttributeError`. */
  const DeclaredFields: set<string> := {
    "openai_api_key", "calcom_api_key", "calcom_base_url", "user_email", "debug",
    "host", "port", "openai_model", "temperature", "max_tokens"}

  /** `os.getenv(key, default)` */
  function Getenv(env: map<string, string>, key: string, default: string): string
  {
    if key in env then env[key] else default
  }

  /** The `debug` default: `os.getenv("DEBUG", "False").lower() == "true"`. */
  predicate ParseDebug(value: string)
  {
    Lower(value) == "true"
  }

  /** Debug is on exactly for the four letters of "true", in any case. */
  lemma DebugSpelling(value: string)
    ensures ParseDebug(value) <==>
      |value| == 4 && value[0] in "tT" && value[1] in "rR" && value[2] in "uU" && value[3] in "eE"
  {
    if |value| == 4 {
      var l := Lower(value);
      assert l == [l[0], l[1], l[2], l[3]];
    }
  }

  /** The default for an unset variable, "False", leaves debug off. */
  lemma DebugDefaultOff(env: map<string, string>)
    requires "DEBUG" !in env
    ensures !ParseDebug(Getenv(env, "DEBUG", "False"))
  {
    DebugSpelling("False");
  }

  /** One message per required value that is empty, in the order of `names`. */
  function Missing(names: seq<string>, values: seq<string>): (r: seq<string>)
    requires |names| == |values|
    ensures |r| <= |names|
  {
    if names == [] then []
    else
      var n := |names| - 1;
      Missing(names[..n], values[..n]) + (if values[n] == "" then [names[n] + " is required"] else [])
  }

  /** Nothing is missing exactly when every value is set, and each empty value
      and nothing else has its message. */
  lemma {:induction false} MissingSpec(names: seq<string>, values: seq<string>)
    requires |names| == |values|
    ensures Missing(names, values) == [] <==> forall i :: 0 <= i < |values| ==> values[i] != ""
    ensures forall i :: 0 <= i < |names| && values[i] == "" ==> names[i] + " is required" in Missing(names, values)
    ensures forall m :: m in Missing(names, values) ==>
      exists i :: 0 <= i < |names| && values[i] == "" && m == names[i] + " is required"
    decreases |names|
  {
    if names != [] {
      var n := |names| - 1;
      MissingSpec(names[..n], values[..n]);
      forall i | 0 <= i < n
        ensures names[..n][i] == names[i] && values[..n][i] == values[i]
      {
      }
    }
  }

  /** For the three required settings: at most one message each, in the
      order OpenAI, Cal.com, user email. */
  lemma MissingRequired(openai: string, calcom: string, email: string)
    ensures Missing(RequiredNames, [openai, calcom, email]) ==
      (if openai == "" then ["OPENAI_API_KEY is required"] else [])
      + (if calcom == "" then ["CALCOM_API_KEY is required"] else [])
      + (if email == "" then ["USER_EMAIL is required"] else [])
  {
    var names, values := RequiredNames, [openai, calcom, email];
    assert Missing(names[..0], values[..0]) == [];
    assert names[0] + " is required" == "OPENAI_API_KEY is required";
    assert names[1] + " is required" == "CALCOM_API_KEY is required";
    assert names[2] + " is required" == "USER_EMAIL is required";
    assert names[..1][0] == names[0] && values[..1][0] == openai;
    assert names[..2][1] == names[1] && values[..2][1] == calcom;
    assert names[..1][..0] == names[..0] && values[..1][..0] == values[..0];
    assert Missing(names[..1], values[..1]) == (if openai == "" then ["OPENAI_API_KEY is required"] else []);
    assert names[..2][..1] == names[..1] && values[..2][..1] == values[..1];
    assert names[..3][..2] == names[..2] && values[..3][..2] == values[..2];
    assert names[..3] == names && values[..3] == values;
  }

  /** The error text names every missing setting. */
  lemma ErrorNamesEach(missing: seq<string>, j: nat)
    requires j < |missing|
    ensures Contains(MissingPrefix + Join(", ", missing), missing[j])
  {
    var k := JoinOccurs(", ", missing, j);
    OccursShift(MissingPrefix, Join(", ", missing), missing[j], k);
    ContainsAt(MissingPrefix + Join(", ", missing), missing[j]);
  }

  /** `Settings`: the fields the agent reads. */
  class Settings {
    var openaiApiKey: string
    var calcomApiKey: string
    var userEmail: string
    var debug: bool

    /** The field defaults, each read from the environment. */
    constructor(env: map<string, string>)
      ensures openaiApiKey == Getenv(env, "OPENAI_API_KEY", "")
      ensures calcomApiKey == Getenv(env, "CALCOM_API_KEY", "")
      ensures userEmail == Getenv(env, "USER_EMAIL", "")
      ensures debug == ParseDebug(Getenv(env, "DEBUG", "False"))
    {
      openaiApiKey := Getenv(env, "OPENAI_API_KEY", "");
      calcomApiKey := Getenv(env, "CALCOM_API_KEY", "");
      userEmail := Getenv(env, "USER_EMAIL", "");
      debug := ParseDebug(Getenv(env, "DEBUG", "False"));
    }

    /** The required values, in the order of `RequiredNames`. */
    function RequiredValues(): seq<string>
      reads this
    {
      [openaiApiKey, calcomApiKey, userEmail]
    }

    /** `validate_required_settings`: the `ValueError` message when a required
        value is empty, `None` when all are set. */
    method ValidateRequired() returns (error: Option<string>)
      ensures error.None? <==> openaiApiKey != "" && calcomApiKey != "" && userEmail != ""
      ensures error.Some? ==> error.value == MissingPrefix + Join(", ", Missing(RequiredNames, RequiredValues()))
    {
      var errors: seq<string> := [];
      if openaiApiKey == "" {
        errors := errors + ["OPENAI_API_KEY is required"];
      }
      if calcomApiKey == "" {
        errors := errors + ["CALCOM_API_KEY is required"];
      }
      if userEmail == "" {
        errors := errors + ["USER_EMAIL is required"];
      }
      MissingRequired(openaiApiKey, calcomApiKey, userEmail);
      assert errors == Missing(RequiredNames, RequiredValues());
      if errors != [] {
        error := Some(MissingPrefix + Join(", ", errors));
      } else {
        error := None;
      }
    }
  }
}
