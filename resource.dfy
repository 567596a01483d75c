/**
 * The `vault_github_auth_backend` resource: the validator of its `path` attribute, the
 * configuration payload it sends, and its four lifecycle handlers.
 */
module Resource {
  import opened Strings
  import opened Api
  import opened Github

  /** githubAuthType: the type the handlers mount the backend with. */
  const GithubAuthType := GithubType

  /** The `path` attribute's default: the backend is mounted at "github" unless told otherwise. */
  const DefaultPath := GithubAuthType

  /** The one error the `path` validator can report. */
  const TrailingSlashError := "cannot write to a path ending in '/'"

  /** Payload keys sent on every update, whether or not the attribute was given. */
  const AlwaysSentKeys := {"base_url", "bypass_github_mfa", "organization", "token"}

  const EnableErrorPrefix := "error writing to Vault: "
  const DisableErrorPrefix := "error disabling auth from Vault: "

  function CheckErrorPrefix(path: string): string {
    "unable to check auth backends in Vault for path " + path + ": "
  }

  /** Read's error when listing the mounts failed with `cause`. */
  function ReadListError(path: string, cause: string): string {
    CheckErrorPrefix(path) + ListErrorPrefix + cause
  }

  function UpdateErrorPrefix(path: string): string {
    "error updating configuration to Vault for path " + path + ": "
  }

  /**
   * The `path` attribute's ValidateFunc: no warnings ever, and one error exactly when the
   * value ends in "/".
   */
  function ValidatePath(value: string): (r: (seq<string>, seq<string>))
    ensures r.0 == []
    ensures |value| > 0 && value[|value| - 1] == '/' ==> r.1 == [TrailingSlashError]
    ensures !(|value| > 0 && value[|value| - 1] == '/') ==> r.1 == []
  {
    SlashSuffix(value);
    var errs := if HasSuffix(value, "/") then [TrailingSlashError] else [];
    ([], errs)
  }

  /** The default path passes its own validator. */
  lemma DefaultPathIsValid()
    ensures ValidatePath(DefaultPath) == ([], [])
  {
  }

  /**
   * The resource's attributes as the handlers read them with d.Get. An optional string that
   * was not given reads as "". `bypassGithubMfa` and `token` are read although the schema
   * does not declare them; the model only carries them along.
   */
  datatype Config = Config(
    path: string,
    description: string,
    organization: string,
    baseUrl: string,
    ttl: string,
    maxTtl: string,
    bypassGithubMfa: Value,
    token: Value)

  /**
   * d.GetOk on a string attribute: it is reported only when it is set to a non-zero value,
   * that is, to a non-empty string.
   */
  predicate GetOk(attribute: string) {
    attribute != ""
  }

  /** The keys an update sends: the always-sent ones, and each optional one GetOk reports. */
  function PayloadKeys(c: Config): set<string> {
    AlwaysSentKeys
    + (if GetOk(c.ttl) then {"ttl"} else {})
    + (if GetOk(c.maxTtl) then {"max_ttl"} else {})
  }

  /** The value sent under one payload key: the attribute of the same name. */
  function Attribute(c: Config, key: string): Value
    requires key in PayloadKeys(c)
  {
    match key
    case "base_url" => Str(c.baseUrl)
    case "bypass_github_mfa" => c.bypassGithubMfa
    case "organization" => Str(c.organization)
    case "token" => c.token
    case "ttl" => Str(c.ttl)
    case "max_ttl" => Str(c.maxTtl)
  }

  /**
   * The payload an update sends. The four always-sent keys are present whatever their value;
   * `ttl` and `max_ttl` appear exactly when GetOk reports them; nothing else is sent.
   */
  function ConfigurationPayload(c: Config): (p: Payload)
    ensures p.Keys == AlwaysSentKeys
                      + (if c.ttl != "" then {"ttl"} else {})
                      + (if c.maxTtl != "" then {"max_ttl"} else {})
    ensures p["base_url"] == Str(c.baseUrl) && p["organization"] == Str(c.organization)
    ensures p["bypass_github_mfa"] == c.bypassGithubMfa && p["token"] == c.token
    ensures "ttl" in p ==> p["ttl"] == Str(c.ttl) && c.ttl != ""
    ensures "max_ttl" in p ==> p["max_ttl"] == Str(c.maxTtl) && c.maxTtl != ""
  {
    map key | key in PayloadKeys(c) :: Attribute(c, key)
  }

  /** A worked example of ConfigurationPayload's contract: a declared configuration without
      ttl gives a payload without a `ttl` key, and one with ttl "1h" sends `ttl: "1h"`. */
  lemma TtlScenarios(c: Config)
    ensures c.ttl == "" ==> "ttl" !in ConfigurationPayload(c)
    ensures c.ttl == "1h" ==> "ttl" in ConfigurationPayload(c) && ConfigurationPayload(c)["ttl"] == Str("1h")
  {
  }

  /**
   * One instance of the resource as the lifecycle handlers see it: its identifier (d.Id(),
   * where "" means the resource does not exist), its declared attributes, and the Vault
   * client passed to every handler.
   */
  class GithubAuthBackend {
    var id: string
    const config: Config
    const client: Vault

    constructor (id: string, config: Config, client: Vault)
      ensures this.id == id && this.config == config && this.client == client
    {
      this.id := id;
      this.config := config;
      this.client := client;
    }

    /**
     * githubAuthBackendRead. A missing mount is drift, not an error: the identifier is
     * cleared. A present mount leaves it alone. A failed presence check is an error and
     * leaves it alone. The server is not touched.
     */
    method Read() returns (err: Outcome)
      modifies this
      ensures client.listOutcome.Pass? ==>
                err == Pass && id == if GithubMountAt(client.mounts, old(id)) then old(id) else ""
      ensures client.listOutcome.Fail? ==>
                err == Fail(ReadListError(old(id), client.listOutcome.error)) && id == old(id)
    {
      var path := id;
      var present, checkErr := IsGithubAuthBackendPresent(client, path);
      if checkErr.Fail? {
        return Fail(CheckErrorPrefix(path) + checkErr.error);
      }
      if !present {
        id := "";
        return Pass;
      }
      return Pass;
    }

    /**
     * githubAuthBackendUpdate. Builds the payload, writes it once to the configuration
     * endpoint of the current identifier and, only if that write succeeded, finishes with
     * Read. The mount table is not touched.
     */
    method Update() returns (err: Outcome)
      modifies this, client
      ensures client.mounts == old(client.mounts) && client.listOutcome == old(client.listOutcome)
      ensures |client.history| == |old(client.history)| + 1
      ensures var write := client.history[|old(client.history)|];
              && client.history == old(client.history) + [write]
              && write.request == WriteRequest(GithubConfigEndpoint(old(id)), ConfigurationPayload(config))
              && client.configs == (if write.outcome.Pass?
                                    then old(client.configs)[GithubConfigEndpoint(old(id)) := ConfigurationPayload(config)]
                                    else old(client.configs))
              && (write.outcome.Fail? ==> err == Fail(UpdateErrorPrefix(old(id)) + write.outcome.error) && id == old(id))
              && (write.outcome.Pass? && client.listOutcome.Pass? ==>
                    err == Pass && id == if GithubMountAt(client.mounts, old(id)) then old(id) else "")
              && (write.outcome.Pass? && client.listOutcome.Fail? ==>
                    err == Fail(ReadListError(old(id), client.listOutcome.error)) && id == old(id))
    {
      var path := id;

      var configuration: Payload := map[
        "base_url" := Str(config.baseUrl),
        "bypass_github_mfa" := config.bypassGithubMfa,
        "organization" := Str(config.organization),
        "token" := config.token];
      if GetOk(config.ttl) {
        configuration := configuration["ttl" := Str(config.ttl)];
      }
      if GetOk(config.maxTtl) {
        configuration := configuration["max_ttl" := Str(config.maxTtl)];
      }
      assert configuration == ConfigurationPayload(config);

      var writeErr := client.Write(GithubConfigEndpoint(path), configuration);
      if writeErr.Fail? {
        return Fail(UpdateErrorPrefix(path) + writeErr.error);
      }

      err := Read();
    }

    /**
     * githubAuthBackendWrite, the resource's Create. Enables a GitHub mount at the declared
     * path; if that fails, nothing else happens. Otherwise the identifier becomes the path
     * BEFORE the update runs, so it stays set even when the configuration write that
     * follows fails.
     */
    method Create() returns (err: Outcome)
      modifies this, client
      ensures client.listOutcome == old(client.listOutcome)
      ensures |client.history| > |old(client.history)|
      ensures var enable := client.history[|old(client.history)|];
              && client.history[..|old(client.history)| + 1] == old(client.history) + [enable]
              && enable.request == EnableRequest(config.path, GithubAuthType, config.description)
              && (enable.outcome.Fail? ==>
                    && err == Fail(EnableErrorPrefix + enable.outcome.error)
                    && id == old(id)
                    && client.history == old(client.history) + [enable]
                    && client.mounts == old(client.mounts)
                    && client.configs == old(client.configs))
              && (enable.outcome.Pass? ==>
                    && id == config.path
                    && client.mounts == old(client.mounts)[MountKey(config.path) := MountOutput(GithubAuthType, config.description)]
                    && GithubMountAt(client.mounts, config.path))
      ensures var enable := client.history[|old(client.history)|];
              enable.outcome.Pass? ==>
                && |client.history| == |old(client.history)| + 2
                && var write := client.history[|old(client.history)| + 1];
                && write.request == WriteRequest(GithubConfigEndpoint(config.path), ConfigurationPayload(config))
                && client.configs == (if write.outcome.Pass?
                                      then old(client.configs)[GithubConfigEndpoint(config.path) := ConfigurationPayload(config)]
                                      else old(client.configs))
                && (write.outcome.Fail? ==> err == Fail(UpdateErrorPrefix(config.path) + write.outcome.error))
                && (write.outcome.Pass? && client.listOutcome.Pass? ==> err == Pass)
                && (write.outcome.Pass? && client.listOutcome.Fail? ==>
                      err == Fail(ReadListError(config.path, client.listOutcome.error)))
    {
      var authType := GithubAuthType;
      var desc := config.description;
      var path := config.path;

      var enableErr := client.EnableAuth(path, authType, desc);
      if enableErr.Fail? {
        return Fail(EnableErrorPrefix + enableErr.error);
      }
      EnabledIsPresent(old(client.mounts), path, desc);

      id := path;

      err := Update();
    }

    /**
     * githubAuthBackendDelete. Disables the mount named by the identifier; the identifier
     * itself is left to the orchestrator.
     */
    method Delete() returns (err: Outcome)
      modifies client
      ensures |client.history| == |old(client.history)| + 1
      ensures var disable := client.history[|old(client.history)|];
              && client.history == old(client.history) + [disable]
              && disable.request == DisableRequest(id)
              && err == (if disable.outcome.Pass? then Pass
                         else Fail(DisableErrorPrefix + disable.outcome.error))
              && client.mounts == (if disable.outcome.Pass? then old(client.mounts) - {MountKey(id)}
                                   else old(client.mounts))
              && client.configs == (if disable.outcome.Pass? then Discard(old(client.configs), MountNamespace(id))
                                    else old(client.configs))
              && (disable.outcome.Pass? ==> GithubConfigEndpoint(id) !in client.configs)
      ensures client.listOutcome == old(client.listOutcome)
      ensures unchanged(this)
    {
      var path := id;

      var disableErr := client.DisableAuth(path);
      if disableErr.Fail? {
        return Fail(DisableErrorPrefix + disableErr.error);
      }
      GithubConfigEndpointInMount(path);
      return Pass;
    }
  }

  /**
   * The round trip: a Create followed by a Read on the same server. When Create succeeds, so
   * does the Read, and the resource exists with the declared path as its identifier and the
   * GitHub mount is there.
   */
  method CreateThenRead(r: GithubAuthBackend) returns (created: Outcome, read: Outcome)
    modifies r, r.client
    ensures created.Pass? ==>
              read.Pass? && r.id == r.config.path && GithubMountAt(r.client.mounts, r.config.path)
  {
    created := r.Create();
    read := r.Read();
  }

  /**
   * Deleting and then reading: when the disable and the listing both succeed, Read finds no
   * mount, clears the identifier and reports no error.
   */
  method DeleteThenRead(r: GithubAuthBackend) returns (deleted: Outcome, read: Outcome)
    modifies r, r.client
    ensures deleted.Pass? && r.client.listOutcome.Pass? ==> read.Pass? && r.id == ""
  {
    deleted := r.Delete();
    DisabledIsAbsent(old(r.client.mounts), r.id);
    read := r.Read();
  }
}
