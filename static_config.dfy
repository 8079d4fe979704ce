/** static.config.js, checkForRequiredEnvironmentVariables: which
    environment variables must be set for the build, which may be, and
    whether the build stops. The environment is a map from name to value;
    a name outside the map is undefined. Printing and exiting are replaced
    by the decision they carry out. */
module StaticConfig {
  import opened Options

  type Env = map<string, string>

  const AlwaysRequiredEnvVars: seq<string> := ["API_ROOT"]
  const OauthEnvVars: seq<string> := ["AUTH0_DOMAIN", "AUTH0_CLIENT_ID", "AUTH0_BACKEND_API_IDENTIFIER"]

  predicate IsProduction(env: Env) {
    "NODE_ENV" in env && env["NODE_ENV"] == "production"
  }

  function RequiredEnvVars(env: Env): seq<string> {
    if IsProduction(env) then AlwaysRequiredEnvVars + OauthEnvVars + ["FRONTEND_PROD_SITE_ROOT"]
    else AlwaysRequiredEnvVars
  }

  function OptionalEnvVars(env: Env): seq<string> {
    if IsProduction(env) then ["FRONTEND_PROD_BASE_PATH"]
    else OauthEnvVars + ["FRONTEND_MOCK_API_SERVER"]
  }

  /** A variable counts as unset when it is undefined or empty */
  predicate IsUnsetEnvVar(env: Env, key: string) {
    key !in env || env[key] == ""
  }

  /** The unset variables among keys, in their order */
  function MissingEnvVars(env: Env, keys: seq<string>): (r: seq<string>)
    ensures |r| <= |keys|
    ensures forall k :: k in r <==> k in keys && IsUnsetEnvVar(env, k)
  {
    if keys == [] then []
    else if IsUnsetEnvVar(env, keys[0]) then [keys[0]] + MissingEnvVars(env, keys[1..])
    else MissingEnvVars(env, keys[1..])
  }

  /** The filter keeps the order of the list: it distributes over
      concatenation (and on one name keeps it exactly when it is unset) */
  lemma {:induction false} MissingEnvVarsConcat(env: Env, xs: seq<string>, ys: seq<string>)
    ensures MissingEnvVars(env, xs + ys) == MissingEnvVars(env, xs) + MissingEnvVars(env, ys)
    decreases |xs|
  {
    if xs != [] {
      assert (xs + ys)[0] == xs[0];
      assert (xs + ys)[1..] == xs[1..] + ys;
      MissingEnvVarsConcat(env, xs[1..], ys);
    } else {
      assert xs + ys == ys;
    }
  }

  /** The required list in each mode, exactly and in order */
  lemma RequiredLists(env: Env)
    ensures IsProduction(env) ==>
      RequiredEnvVars(env) == ["API_ROOT", "AUTH0_DOMAIN", "AUTH0_CLIENT_ID", "AUTH0_BACKEND_API_IDENTIFIER", "FRONTEND_PROD_SITE_ROOT"]
    ensures !IsProduction(env) ==> RequiredEnvVars(env) == ["API_ROOT"]
    ensures IsProduction(env) ==> OptionalEnvVars(env) == ["FRONTEND_PROD_BASE_PATH"]
    ensures !IsProduction(env) ==>
      OptionalEnvVars(env) == ["AUTH0_DOMAIN", "AUTH0_CLIENT_ID", "AUTH0_BACKEND_API_IDENTIFIER", "FRONTEND_MOCK_API_SERVER"]
  {
  }

  /** No variable is both required and optional, in either mode */
  lemma RequiredAndOptionalDisjoint(env: Env)
    ensures forall k :: k in RequiredEnvVars(env) ==> k !in OptionalEnvVars(env)
  {
  }

  const RequiredHeading := "The following environment variables are required:"
  const OptionalHeading := "Optional environment variables that you can set:"

  /** The lines of a message: the heading, one "- name" line per name, then an empty line */
  function MessageLines(heading: string, names: seq<string>): (lines: seq<string>)
    ensures |lines| == |names| + 2 && lines[0] == heading && lines[|lines| - 1] == ""
    ensures forall i :: 0 <= i < |names| ==> lines[i + 1] == "- " + names[i]
  {
    [heading] + seq(|names|, i requires 0 <= i < |names| => "- " + names[i]) + [""]
  }

  /** The lines joined with newlines */
  function JoinLines(lines: seq<string>): string
    requires |lines| > 0
  {
    if |lines| == 1 then lines[0] else lines[0] + "\n" + JoinLines(lines[1..])
  }

  /** What the build step decides: print the missing required variables to the
      error stream and exit with code 1, or else carry on, first printing
      a warning naming the missing optional ones when there are any */
  datatype Outcome =
    | Exit(code: int, error: string)
    | Continue(warning: Option<string>)

  function CheckForRequiredEnvironmentVariables(env: Env): (r: Outcome)
    ensures r.Exit? <==> exists k :: k in RequiredEnvVars(env) && IsUnsetEnvVar(env, k)
    ensures r.Exit? ==> r.code == 1 && r.error == JoinLines(MessageLines(RequiredHeading, MissingEnvVars(env, RequiredEnvVars(env))))
    ensures r.Continue? ==>
      (r.warning.Some? <==> exists k :: k in OptionalEnvVars(env) && IsUnsetEnvVar(env, k))
    ensures r.Continue? && r.warning.Some? ==>
      r.warning.value == JoinLines(MessageLines(OptionalHeading, MissingEnvVars(env, OptionalEnvVars(env))))
  {
    var missing := MissingEnvVars(env, RequiredEnvVars(env));
    var missingOptional := MissingEnvVars(env, OptionalEnvVars(env));
    if |missing| > 0 then
      assert missing[0] in missing;
      Exit(1, JoinLines(MessageLines(RequiredHeading, missing)))
    else if |missingOptional| > 0 then
      assert missingOptional[0] in missingOptional;
      Continue(Some(JoinLines(MessageLines(OptionalHeading, missingOptional))))
    else Continue(None)
  }

  /** In development only API_ROOT is required: with it set, the build never stops */
  lemma DevelopmentNeedsOnlyApiRoot(env: Env)
    requires !IsProduction(env) && "API_ROOT" in env && env["API_ROOT"] != ""
    ensures CheckForRequiredEnvironmentVariables(env).Continue?
  {
  }

  /** In production a build whose AUTH0_DOMAIN is absent or empty stops,
      whatever else is set */
  lemma ProductionNeedsAuth0Domain(env: Env)
    requires IsProduction(env) && IsUnsetEnvVar(env, "AUTH0_DOMAIN")
    ensures CheckForRequiredEnvironmentVariables(env).Exit?
  {
    var required := RequiredEnvVars(env);
    assert required[1] == "AUTH0_DOMAIN" && IsUnsetEnvVar(env, required[1]);
    assert required[1] in required;
  }
}
