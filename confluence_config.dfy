/**
 * The Confluence server's configuration: the settings `Config.__init__`
 * assembles from the environment and the checklist `Config.validate` runs.
 */
module ConfluenceConfig {
  import opened Json
  import opened Settings

  /** The two mode flags of `ServerConfig`. */
  datatype ServerSettings = ServerSettings(useCustomApi: bool, useBearerToken: bool)

  /** `ConfluenceConfig`: where to reach Confluence and how to authenticate. */
  datatype ConfluenceSettings = ConfluenceSettings(
    baseUrl: string,
    accessToken: Option<string>,
    username: Option<string>,
    apiToken: Option<string>)

  /** `Config`: the server flags, the Confluence settings, and the custom API
      settings when custom mode is on. */
  datatype Config = Config(server: ServerSettings, confluence: ConfluenceSettings, customApi: Option<CustomApiSettings>)

  /** `ServerConfig()`: both flags validated from the environment; bearer
      authentication is on by default here. */
  function ServerFromEnv(env: map<string, string>): (s: ServerSettings)
    ensures "USE_CUSTOM_API" !in env ==> !s.useCustomApi
    ensures "USE_BEARER_TOKEN" !in env ==> s.useBearerToken
  {
    ServerSettings(FlagFromEnv(env, "USE_CUSTOM_API", false), FlagFromEnv(env, "USE_BEARER_TOKEN", true))
  }

  /** `ConfluenceConfig()` read from the `CONFLUENCE_` variables. */
  function StandardConfluence(env: map<string, string>): (c: ConfluenceSettings)
    requires "CONFLUENCE_BASE_URL" in env
    ensures c.baseUrl == env["CONFLUENCE_BASE_URL"]
    ensures FromVar(c.accessToken, env, "CONFLUENCE_ACCESS_TOKEN")
    ensures FromVar(c.username, env, "CONFLUENCE_USERNAME") && FromVar(c.apiToken, env, "CONFLUENCE_API_TOKEN")
    ensures Present(c.accessToken) <==> IsSet(env, "CONFLUENCE_ACCESS_TOKEN")
    ensures Present(c.username) <==> IsSet(env, "CONFLUENCE_USERNAME")
    ensures Present(c.apiToken) <==> IsSet(env, "CONFLUENCE_API_TOKEN")
  {
    ConfluenceSettings(env["CONFLUENCE_BASE_URL"], Lookup(env, "CONFLUENCE_ACCESS_TOKEN"),
                       Lookup(env, "CONFLUENCE_USERNAME"), Lookup(env, "CONFLUENCE_API_TOKEN"))
  }

  /** The stand-in Confluence settings of custom mode: the custom key serves
      as both the access token and the API token. */
  function CompatConfluence(custom: CustomApiSettings): (c: ConfluenceSettings)
    ensures c.baseUrl == custom.baseUrl
    ensures c.accessToken == c.apiToken == Some(custom.apiKey)
    ensures c.username == Some("custom-api-user")
  {
    ConfluenceSettings(custom.baseUrl, Some(custom.apiKey), Some("custom-api-user"), Some(custom.apiKey))
  }

  /** The variables `Config()` cannot do without: pydantic refuses to build
      `CustomAPIConfig` or `ConfluenceConfig` when a field without default
      is unset. */
  predicate Loadable(env: map<string, string>)
  {
    if ServerFromEnv(env).useCustomApi then "CUSTOM_API_BASE_URL" in env && "CUSTOM_API_KEY" in env
    else "CONFLUENCE_BASE_URL" in env
  }

  /** `Config()`. */
  function LoadConfig(env: map<string, string>): (c: Config)
    requires Loadable(env)
    ensures c.server == ServerFromEnv(env)
    ensures c.server.useCustomApi ==>
      c.customApi == Some(CustomApiFromEnv(env)) && c.confluence == CompatConfluence(CustomApiFromEnv(env))
    ensures !c.server.useCustomApi ==> c.customApi == None && c.confluence == StandardConfluence(env)
  {
    var server := ServerFromEnv(env);
    if server.useCustomApi then
      var custom := CustomApiFromEnv(env);
      Config(server, CompatConfluence(custom), Some(custom))
    else
      Config(server, StandardConfluence(env), None)
  }

  /** The variables `validate` requires: the credentials are added only when
      the environment lacks them. */
  function RequiredVars(server: ServerSettings, env: map<string, string>): (vars: seq<string>)
    ensures server.useCustomApi ==> vars == ["CUSTOM_API_BASE_URL", "CUSTOM_API_KEY"]
    ensures !server.useCustomApi ==> |vars| > 0 && vars[0] == "CONFLUENCE_BASE_URL"
  {
    if server.useCustomApi then ["CUSTOM_API_BASE_URL", "CUSTOM_API_KEY"]
    else if server.useBearerToken then
      ["CONFLUENCE_BASE_URL"] + (if IsSet(env, "CONFLUENCE_ACCESS_TOKEN") then [] else ["CONFLUENCE_ACCESS_TOKEN"])
    else
      ["CONFLUENCE_BASE_URL"] +
      (if IsSet(env, "CONFLUENCE_USERNAME") && IsSet(env, "CONFLUENCE_API_TOKEN") then []
       else ["CONFLUENCE_USERNAME", "CONFLUENCE_API_TOKEN"])
  }

  /** `Config.validate`: Err carries the message of the ValueError raised. */
  method Validate(config: Config, env: map<string, string>) returns (r: Result<()>)
    ensures var missing := MissingVars(RequiredVars(config.server, env), env);
      && (missing != [] ==> r == Err(MissingMessage(missing)))
      && (r.Ok? <==> missing == [])
  {
    var required: seq<string>;
    if config.server.useCustomApi {
      required := ["CUSTOM_API_BASE_URL", "CUSTOM_API_KEY"];
    } else {
      required := ["CONFLUENCE_BASE_URL"];
      if config.server.useBearerToken {
        if !IsSet(env, "CONFLUENCE_ACCESS_TOKEN") {
          required := required + ["CONFLUENCE_ACCESS_TOKEN"];
        }
      } else {
        if !(IsSet(env, "CONFLUENCE_USERNAME") && IsSet(env, "CONFLUENCE_API_TOKEN")) {
          required := required + ["CONFLUENCE_USERNAME", "CONFLUENCE_API_TOKEN"];
        }
      }
    }
    assert required == RequiredVars(config.server, env);
    var missing := MissingVars(required, env);
    if missing != [] {
      return Err(MissingMessage(missing));
    }
    return Ok(());
  }

  /** Bearer mode: the access token is reported missing exactly when it is
      unset or empty, and the conditional append gives the same list as
      always requiring it. */
  lemma BearerMissing(server: ServerSettings, env: map<string, string>)
    requires !server.useCustomApi && server.useBearerToken
    ensures var missing := MissingVars(RequiredVars(server, env), env);
      && ("CONFLUENCE_ACCESS_TOKEN" in missing <==> !IsSet(env, "CONFLUENCE_ACCESS_TOKEN"))
      && missing == MissingVars(["CONFLUENCE_BASE_URL", "CONFLUENCE_ACCESS_TOKEN"], env)
  {
    var base := ["CONFLUENCE_BASE_URL"];
    var always := base + ["CONFLUENCE_ACCESS_TOKEN"];
    MissingVarsAppend(base, ["CONFLUENCE_ACCESS_TOKEN"], env);
    if IsSet(env, "CONFLUENCE_ACCESS_TOKEN") {
      assert RequiredVars(server, env) == base;
      assert MissingVars(["CONFLUENCE_ACCESS_TOKEN"], env) == [];
    } else {
      assert RequiredVars(server, env) == always;
    }
  }

  /** Basic mode: the conditional extend gives the same missing list as
      always requiring both credentials, namely the base URL if unset
      followed by exactly the unset ones among the user name and API token. */
  lemma BasicMissing(server: ServerSettings, env: map<string, string>)
    requires !server.useCustomApi && !server.useBearerToken
    ensures var missing := MissingVars(RequiredVars(server, env), env);
      && missing == MissingVars(["CONFLUENCE_BASE_URL", "CONFLUENCE_USERNAME", "CONFLUENCE_API_TOKEN"], env)
      && missing == (if IsSet(env, "CONFLUENCE_BASE_URL") then [] else ["CONFLUENCE_BASE_URL"])
                    + (if IsSet(env, "CONFLUENCE_USERNAME") then [] else ["CONFLUENCE_USERNAME"])
                    + (if IsSet(env, "CONFLUENCE_API_TOKEN") then [] else ["CONFLUENCE_API_TOKEN"])
  {
    var base := ["CONFLUENCE_BASE_URL"];
    var user := ["CONFLUENCE_USERNAME"];
    var token := ["CONFLUENCE_API_TOKEN"];
    var creds := user + token;
    MissingVarsAppend(base, creds, env);
    MissingVarsAppend(user, token, env);
    MissingOne("CONFLUENCE_BASE_URL", env);
    MissingOne("CONFLUENCE_USERNAME", env);
    MissingOne("CONFLUENCE_API_TOKEN", env);
    assert base + creds == ["CONFLUENCE_BASE_URL", "CONFLUENCE_USERNAME", "CONFLUENCE_API_TOKEN"];
    if IsSet(env, "CONFLUENCE_USERNAME") && IsSet(env, "CONFLUENCE_API_TOKEN") {
      assert RequiredVars(server, env) == base;
    } else {
      assert RequiredVars(server, env) == base + creds;
    }
  }
}
