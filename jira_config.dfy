/**
 * The Jira server's configuration: the settings `Config.__init__` assembles
 * from the environment and the checklist `Config.validate` runs over them.
 */
module JiraConfig {
  import opened Json
  import opened Settings

  /** The two mode flags of `ServerConfig`. */
  datatype ServerSettings = ServerSettings(useCustomApi: bool, useBearerToken: bool)

  /** `JiraConfig`: where to reach Jira and how to authenticate. */
  datatype JiraSettings = JiraSettings(
    baseUrl: string,
    username: Option<string>,
    apiToken: Option<string>,
    accessToken: Option<string>)

  /** `Config`: the server flags, the Jira settings, and the custom API
      settings when custom mode is on. */
  datatype Config = Config(server: ServerSettings, jira: JiraSettings, customApi: Option<CustomApiSettings>)

  /** `ServerConfig()`: both flags validated from the environment, both off
      by default. */
  function ServerFromEnv(env: map<string, string>): (s: ServerSettings)
    ensures "USE_CUSTOM_API" !in env ==> !s.useCustomApi
    ensures "USE_BEARER_TOKEN" !in env ==> !s.useBearerToken
  {
    ServerSettings(FlagFromEnv(env, "USE_CUSTOM_API", false), FlagFromEnv(env, "USE_BEARER_TOKEN", false))
  }

  /** `JiraConfig()` read from the `JIRA_` variables. */
  function StandardJira(env: map<string, string>): (j: JiraSettings)
    requires "JIRA_BASE_URL" in env
    ensures j.baseUrl == env["JIRA_BASE_URL"]
    ensures FromVar(j.username, env, "JIRA_USERNAME") && FromVar(j.apiToken, env, "JIRA_API_TOKEN")
    ensures FromVar(j.accessToken, env, "JIRA_ACCESS_TOKEN")
    ensures Present(j.username) <==> IsSet(env, "JIRA_USERNAME")
    ensures Present(j.apiToken) <==> IsSet(env, "JIRA_API_TOKEN")
    ensures Present(j.accessToken) <==> IsSet(env, "JIRA_ACCESS_TOKEN")
  {
    JiraSettings(env["JIRA_BASE_URL"], Lookup(env, "JIRA_USERNAME"),
                 Lookup(env, "JIRA_API_TOKEN"), Lookup(env, "JIRA_ACCESS_TOKEN"))
  }

  /** The stand-in Jira settings of custom mode: the custom base URL, a fixed
      user name and the custom key as API token are passed in; the access
      token, not passed, is still read from JIRA_ACCESS_TOKEN by pydantic. */
  function CompatJira(custom: CustomApiSettings, env: map<string, string>): (j: JiraSettings)
    ensures j.baseUrl == custom.baseUrl && j.apiToken == Some(custom.apiKey)
    ensures j.username == Some("custom-api-user")
    ensures FromVar(j.accessToken, env, "JIRA_ACCESS_TOKEN")
    ensures Present(j.accessToken) <==> IsSet(env, "JIRA_ACCESS_TOKEN")
  {
    JiraSettings(custom.baseUrl, Some("custom-api-user"), Some(custom.apiKey), Lookup(env, "JIRA_ACCESS_TOKEN"))
  }

  /** The variables `Config()` cannot do without: pydantic refuses to build
      `CustomAPIConfig` or `JiraConfig` when a field without default is unset. */
  predicate Loadable(env: map<string, string>)
  {
    if ServerFromEnv(env).useCustomApi then "CUSTOM_API_BASE_URL" in env && "CUSTOM_API_KEY" in env
    else "JIRA_BASE_URL" in env
  }

  /** `Config()`. */
  function LoadConfig(env: map<string, string>): (c: Config)
    requires Loadable(env)
    ensures c.server == ServerFromEnv(env)
    ensures c.server.useCustomApi ==>
      c.customApi == Some(CustomApiFromEnv(env)) && c.jira == CompatJira(CustomApiFromEnv(env), env)
    ensures !c.server.useCustomApi ==> c.customApi == None && c.jira == StandardJira(env)
  {
    var server := ServerFromEnv(env);
    if server.useCustomApi then
      var custom := CustomApiFromEnv(env);
      Config(server, CompatJira(custom, env), Some(custom))
    else
      Config(server, StandardJira(env), None)
  }

  /** The variables `validate` requires in each mode. */
  function RequiredVars(server: ServerSettings): (vars: seq<string>)
    ensures server.useCustomApi ==> vars == ["CUSTOM_API_BASE_URL", "CUSTOM_API_KEY"]
    ensures !server.useCustomApi && server.useBearerToken ==> vars == ["JIRA_BASE_URL", "JIRA_ACCESS_TOKEN"]
    ensures !server.useCustomApi && !server.useBearerToken ==>
      vars == ["JIRA_BASE_URL", "JIRA_USERNAME", "JIRA_API_TOKEN"]
  {
    if server.useCustomApi then ["CUSTOM_API_BASE_URL", "CUSTOM_API_KEY"]
    else if server.useBearerToken then ["JIRA_BASE_URL", "JIRA_ACCESS_TOKEN"]
    else ["JIRA_BASE_URL", "JIRA_USERNAME", "JIRA_API_TOKEN"]
  }

  const BearerMessage := "Bearer token authentication enabled but JIRA_ACCESS_TOKEN not provided"
  const BasicMessage := "Basic authentication enabled but JIRA_USERNAME or JIRA_API_TOKEN not provided"

  /** The authentication settings the selected mode needs are there. */
  predicate AuthConfigured(config: Config)
  {
    config.server.useCustomApi
    || (config.server.useBearerToken && Present(config.jira.accessToken))
    || (!config.server.useBearerToken && Present(config.jira.username) && Present(config.jira.apiToken))
  }

  /** `Config.validate`: Err carries the message of the ValueError raised. */
  method Validate(config: Config, env: map<string, string>) returns (r: Result<()>)
    ensures var missing := MissingVars(RequiredVars(config.server), env);
      && (missing != [] ==> r == Err(MissingMessage(missing)))
      && (missing == [] && !AuthConfigured(config) ==>
            r == Err(if config.server.useBearerToken then BearerMessage else BasicMessage))
      && (r.Ok? <==> missing == [] && AuthConfigured(config))
  {
    var required: seq<string>;
    if config.server.useCustomApi {
      required := ["CUSTOM_API_BASE_URL", "CUSTOM_API_KEY"];
    } else {
      required := ["JIRA_BASE_URL"];
      if config.server.useBearerToken {
        required := required + ["JIRA_ACCESS_TOKEN"];
      } else {
        required := required + ["JIRA_USERNAME", "JIRA_API_TOKEN"];
      }
    }
    assert required == RequiredVars(config.server);
    var missing := MissingVars(required, env);
    if missing != [] {
      return Err(MissingMessage(missing));
    }
    if !config.server.useCustomApi {
      if config.server.useBearerToken && !Present(config.jira.accessToken) {
        return Err(BearerMessage);
      }
      if !config.server.useBearerToken && (!Present(config.jira.username) || !Present(config.jira.apiToken)) {
        return Err(BasicMessage);
      }
    }
    return Ok(());
  }

  /** For the configuration `Config()` loads, the authentication checks after
      the missing-variable check can never fire: the settings they inspect
      are the very variables that were just found set. So `validate` passes
      exactly when no required variable is missing. */
  lemma AuthChecksUnreachable(env: map<string, string>)
    requires Loadable(env)
    ensures var config := LoadConfig(env);
      MissingVars(RequiredVars(config.server), env) == [] ==> AuthConfigured(config)
  {
    var config := LoadConfig(env);
    var required := RequiredVars(config.server);
    if !config.server.useCustomApi && MissingVars(required, env) == [] {
      forall v | v in required ensures IsSet(env, v) {
        assert v !in MissingVars(required, env);
      }
      if config.server.useBearerToken {
        assert IsSet(env, required[1]);
      } else {
        assert IsSet(env, required[1]) && IsSet(env, required[2]);
      }
    }
  }

  /** The missing variables, in required order: base URL first, then the
      credentials of the selected mode. */
  lemma MissingInRequiredOrder(server: ServerSettings, env: map<string, string>)
    requires !server.useCustomApi
    ensures MissingVars(RequiredVars(server), env) ==
      MissingVars(["JIRA_BASE_URL"], env) +
      MissingVars(if server.useBearerToken then ["JIRA_ACCESS_TOKEN"] else ["JIRA_USERNAME", "JIRA_API_TOKEN"], env)
  {
    var auth := if server.useBearerToken then ["JIRA_ACCESS_TOKEN"] else ["JIRA_USERNAME", "JIRA_API_TOKEN"];
    assert RequiredVars(server) == ["JIRA_BASE_URL"] + auth;
    MissingVarsAppend(["JIRA_BASE_URL"], auth, env);
  }
}
