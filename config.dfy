/**
 * `check_env_variables` of main.py: the environment is a map from names to
 * values (a name is unset when it is not a key). Every required name must
 * be set; optional names fall back to their defaults.
 */
module Config {
  import opened Wrappers
  import opened Strings

  const MISSING_PREFIX := "Missing required environment variables: "
  const NAME_SEPARATOR := ", "

  /** `required_vars` of main.py. */
  const REQUIRED_VARS: seq<string> :=
    ["WEB_USERNAME", "WEB_SERVER", "MYSQL_USERNAME", "MYSQL_SERVER", "MYSQL_DATABASE", "MYSQL_TABLE"]

  /** `optional_vars_with_defaults` of main.py. */
  const OPTIONAL_DEFAULTS: map<string, string> :=
    map["LOG" := "info", "INTERVAL" := "600", "MYSQL_PASSWORD" := "", "WEB_PASSWORD" := ""]

  /** The required names that are unset, in the order of `required`. */
  function Missing(env: map<string, string>, required: seq<string>): (m: seq<string>)
    ensures forall x :: x in m <==> x in required && x !in env
    ensures |m| <= |required|
  {
    if required == [] then []
    else (if required[0] in env then [] else [required[0]]) + Missing(env, required[1..])
  }

  /** The names a successful call resolves. */
  function Names(required: seq<string>, optional: map<string, string>): (r: set<string>)
    ensures forall x :: x in r <==> x in required || x in optional
  {
    (set y | y in required) + optional.Keys
  }

  /** What a call promises: the error message, or the resolved settings. */
  function ResolveEnv(env: map<string, string>, required: seq<string>, optional: map<string, string>)
    : (r: Result<map<string, string>, string>)
    ensures r.Failure? <==> exists i :: 0 <= i < |required| && required[i] !in env
    ensures r.Failure? ==> r.error == MISSING_PREFIX + Join(Missing(env, required), NAME_SEPARATOR)
    ensures r.Success? ==> forall x :: x in r.value <==> x in required || x in optional
    ensures r.Success? ==> forall x :: x in required ==> r.value[x] == env[x]
    ensures r.Success? ==> forall x :: x in optional ==> r.value[x] == if x in env then env[x] else optional[x]
  {
    var missing := Missing(env, required);
    if missing != [] then
      assert missing[0] in required;
      Failure(MISSING_PREFIX + Join(missing, NAME_SEPARATOR))
    else
      Success(map x | x in Names(required, optional) :: if x in env then env[x] else optional[x])
  }

  /**
   * `check_env_variables`: collect the missing names; on none, start from
   * the required settings and add the optional ones one at a time.
   */
  method CheckEnvVariables(env: map<string, string>, required: seq<string>, optional: map<string, string>)
    returns (r: Result<map<string, string>, string>)
    ensures r == ResolveEnv(env, required, optional)
  {
    var missing := Missing(env, required);
    if missing != [] {
      r := Failure(MISSING_PREFIX + Join(missing, NAME_SEPARATOR));
      assert r == ResolveEnv(env, required, optional);
      return;
    }
    var envVars := map x | x in required :: env[x];
    var todo := optional.Keys;
    while todo != {}
      invariant todo <= optional.Keys
      invariant forall x :: x in envVars <==> x in required || (x in optional && x !in todo)
      invariant forall x :: x in envVars ==> envVars[x] == if x in env then env[x] else optional[x]
      decreases todo
    {
      var k :| k in todo;
      envVars := envVars[k := if k in env then env[k] else optional[k]];
      todo := todo - {k};
    }
    SameSettings(envVars, ResolveEnv(env, required, optional).value);
    r := Success(envVars);
  }

  /** Two settings maps with the same names and values are the same map. */
  lemma SameSettings(a: map<string, string>, b: map<string, string>)
    requires forall x :: x in a <==> x in b
    requires forall x :: x in a ==> a[x] == b[x]
    ensures a == b
  {
  }

  /** The missing names keep their relative order: `Missing` distributes over concatenation. */
  lemma {:induction false} MissingConcat(env: map<string, string>, a: seq<string>, b: seq<string>)
    ensures Missing(env, a + b) == Missing(env, a) + Missing(env, b)
  {
    if a == [] {
      assert a + b == b;
    } else {
      assert (a + b)[1..] == a[1..] + b;
      MissingConcat(env, a[1..], b);
    }
  }

  /**
   * The error message lists exactly the missing names, in order: splitting
   * its tail at ", " gives them back when no required name holds a comma.
   */
  lemma {:induction false} MissingMessageLists(env: map<string, string>, required: seq<string>,
                                               optional: map<string, string>)
    requires Missing(env, required) != []
    requires forall i :: 0 <= i < |required| ==> ',' !in required[i]
    ensures ResolveEnv(env, required, optional).Failure?
    ensures var e := ResolveEnv(env, required, optional).error;
      |MISSING_PREFIX| <= |e| && Split(e[|MISSING_PREFIX|..], NAME_SEPARATOR) == Missing(env, required)
  {
    var m := Missing(env, required);
    var x := m[0];
    assert x in required;
    forall i | 0 <= i < |m| ensures ',' !in m[i] {
      assert m[i] in required;
    }
    SplitJoin(m, NAME_SEPARATOR);
    var e := MISSING_PREFIX + Join(m, NAME_SEPARATOR);
    assert e[|MISSING_PREFIX|..] == Join(m, NAME_SEPARATOR);
  }

  lemma RequiredNamesHaveNoComma()
    ensures forall i :: 0 <= i < |REQUIRED_VARS| ==> ',' !in REQUIRED_VARS[i]
  {
  }

  /** An unset `WEB_SERVER` fails the start-up check, and the message names it. */
  lemma MissingServerIsReported(env: map<string, string>)
    requires "WEB_SERVER" !in env
    ensures ResolveEnv(env, REQUIRED_VARS, OPTIONAL_DEFAULTS).Failure?
    ensures var e := ResolveEnv(env, REQUIRED_VARS, OPTIONAL_DEFAULTS).error;
      |MISSING_PREFIX| <= |e| && "WEB_SERVER" in Split(e[|MISSING_PREFIX|..], NAME_SEPARATOR)
  {
    assert REQUIRED_VARS[1] == "WEB_SERVER";
    assert "WEB_SERVER" in Missing(env, REQUIRED_VARS);
    RequiredNamesHaveNoComma();
    MissingMessageLists(env, REQUIRED_VARS, OPTIONAL_DEFAULTS);
  }

  /** With every required name set, unset optional names take the defaults of main.py. */
  lemma DefaultsApply(env: map<string, string>)
    requires forall i :: 0 <= i < |REQUIRED_VARS| ==> REQUIRED_VARS[i] in env
    requires "LOG" !in env && "INTERVAL" !in env
    ensures ResolveEnv(env, REQUIRED_VARS, OPTIONAL_DEFAULTS).Success?
    ensures var cfg := ResolveEnv(env, REQUIRED_VARS, OPTIONAL_DEFAULTS).value;
      "LOG" in cfg && cfg["LOG"] == "info" && "INTERVAL" in cfg && cfg["INTERVAL"] == "600"
  {
  }
}
