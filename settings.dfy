/**
 * What the two servers' configuration classes share: the `pre=True`
 * validators that turn a boolean setting given as a string into a boolean,
 * and the check that lists the required environment variables that are
 * not set. The process environment is a map from variable names to values.
 */
module Settings {
  import opened Json
  import opened Text

  /** `validate_use_custom_api` / `validate_use_bearer_token`: a string is
      true exactly when its lower-case form is 'true'; any other value passes
      through unchanged. */
  function ValidateFlag(v: Json): (r: Json)
    ensures v.JStr? ==> r.JBool? && (r.b <==> LowerStr(v.s) == "true")
    ensures !v.JStr? ==> r == v
  {
    if v.JStr? then JBool(LowerStr(v.s) == "true") else v
  }

  /** A string is accepted as true exactly when it spells `true` in any mix
      of upper and lower case. (Unicode lower-casing gives no other
      single-character preimage of t, r, u or e, so ASCII lower-casing is
      exact here.) */
  lemma FlagSpellings(s: string)
    ensures ValidateFlag(JStr(s)) == JBool(true) <==>
      |s| == 4 && (s[0] == 't' || s[0] == 'T') && (s[1] == 'r' || s[1] == 'R')
               && (s[2] == 'u' || s[2] == 'U') && (s[3] == 'e' || s[3] == 'E')
  {
    var l := LowerStr(s);
    if |s| == 4 {
      if l == "true" {
        assert l[0] == 't' && l[1] == 'r' && l[2] == 'u' && l[3] == 'e';
      }
      if (s[0] == 't' || s[0] == 'T') && (s[1] == 'r' || s[1] == 'R')
         && (s[2] == 'u' || s[2] == 'U') && (s[3] == 'e' || s[3] == 'E') {
        assert l == "true";
      }
    }
  }

  /** A boolean server setting read from the environment: the validated
      string when the variable is present, else the field's default. */
  function FlagFromEnv(env: map<string, string>, name: string, default: bool): (b: bool)
    ensures name in env ==> (b <==> LowerStr(env[name]) == "true")
    ensures name !in env ==> b == default
  {
    if name in env then ValidateFlag(JStr(env[name])).b else default
  }

  /** `os.getenv(name)` is truthy: the variable is set and not empty. */
  predicate IsSet(env: map<string, string>, name: string)
  {
    name in env && env[name] != ""
  }

  /** An optional setting holds a non-empty string. */
  predicate Present(o: Option<string>)
  {
    o.Some? && o.value != ""
  }

  /** An optional setting holds the value of variable `name`, or nothing
      when the variable is not in the environment. */
  predicate FromVar(o: Option<string>, env: map<string, string>, name: string)
  {
    && (name in env ==> o == Some(env[name]))
    && (name !in env ==> o == None)
  }

  /** `os.getenv(name)` as an optional setting. */
  function Lookup(env: map<string, string>, name: string): (o: Option<string>)
    ensures FromVar(o, env, name)
    ensures Present(o) <==> IsSet(env, name)
  {
    if name in env then Some(env[name]) else None
  }

  /** `CustomAPIConfig`, the same in both servers. */
  datatype CustomApiSettings = CustomApiSettings(baseUrl: string, apiKey: string, version: string)

  /** `CustomAPIConfig()`: base URL and key are required, the version
      defaults to 'v1'. */
  function CustomApiFromEnv(env: map<string, string>): (c: CustomApiSettings)
    requires "CUSTOM_API_BASE_URL" in env && "CUSTOM_API_KEY" in env
    ensures c.baseUrl == env["CUSTOM_API_BASE_URL"] && c.apiKey == env["CUSTOM_API_KEY"]
    ensures c.version == (if "CUSTOM_API_VERSION" in env then env["CUSTOM_API_VERSION"] else "v1")
  {
    CustomApiSettings(env["CUSTOM_API_BASE_URL"], env["CUSTOM_API_KEY"],
                      if "CUSTOM_API_VERSION" in env then env["CUSTOM_API_VERSION"] else "v1")
  }

  /** `[var for var in required_vars if not os.getenv(var)]`. */
  function MissingVars(vars: seq<string>, env: map<string, string>): (m: seq<string>)
    ensures forall v :: v in m <==> v in vars && !IsSet(env, v)
    ensures |m| <= |vars|
  {
    if vars == [] then []
    else (if IsSet(env, vars[0]) then [] else [vars[0]]) + MissingVars(vars[1..], env)
  }

  /** The missing variables keep the order in which they are required: the
      filter of a concatenation is the concatenation of the filters. */
  lemma {:induction false} MissingVarsAppend(a: seq<string>, b: seq<string>, env: map<string, string>)
    ensures MissingVars(a + b, env) == MissingVars(a, env) + MissingVars(b, env)
  {
    if a == [] {
      assert a + b == b;
    } else {
      assert (a + b)[0] == a[0];
      assert (a + b)[1..] == a[1..] + b;
      MissingVarsAppend(a[1..], b, env);
    }
  }

  /** A single variable is missing exactly when it is unset or empty. */
  lemma MissingOne(v: string, env: map<string, string>)
    ensures MissingVars([v], env) == if IsSet(env, v) then [] else [v]
  {
    assert [v][1..] == [];
  }

  /** The ValueError message of `validate` for the missing variables. */
  function MissingMessage(missing: seq<string>): string
  {
    "Missing required environment variables: " + Join(missing, ", ")
  }
}
