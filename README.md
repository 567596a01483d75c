# GitHub auth backend resource for Vault, in Dafny

This project models the `vault_github_auth_backend` resource of a Terraform provider for
HashiCorp Vault. The resource mounts a GitHub auth backend in Vault, writes its configuration
(organization, base URL, token lifetimes), checks that the mount is still there, and unmounts
it. The model covers:

- the presence check `isGithubAuthBackendPresent` and the endpoint name `githubConfigEndpoint`
  (`github.dfy`, module `Github`);
- the `path` attribute's validator, its default, the configuration payload, and the four
  lifecycle handlers Create (`githubAuthBackendWrite`), Read, Update and Delete, as methods of
  the class `GithubAuthBackend` (`resource.dfy`, module `Resource`).

The resource's only local state is its identifier (`d.Id()`, where `""` means the resource
does not exist). Vault is the class `Vault` (`api.dfy`, module `Api`): a table of enabled auth
mounts keyed by path with a trailing `/`, and a store holding the last payload written to
each configuration endpoint. Each call that changes the server may fail nondeterministically,
with a message the model does not choose. Whether listing the mounts fails is part of the
server's state (`listOutcome`), so the contracts can say exactly when a handler reports an
error and when it reports drift. A ghost `history` records every call that changes the server,
with its outcome. The handler contracts can therefore say which mutation happened, how often,
and in what order: one enable, then exactly one write, and no write when the enable fails.
`strings.dfy` holds Go's `strings.HasPrefix` and `strings.HasSuffix`.

Error messages are modelled in full. Go's `fmt.Errorf("...: %s", err)` becomes string
concatenation, so the contracts can name each handler's fixed prefix.

## Model

| member | source | states |
|---|---|---|
| `Api.MountKey` | vault/github.go:14 | the key a mount is listed under is the path followed by one "/" |
| `Api.Vault.ListAuth` | vault/github.go:9 | returns the server's listing outcome; on success the whole mount table, on failure no table |
| `Api.Vault.EnableAuth` | vault/resource_github_auth_backend.go:89 | success adds the mount `path + "/"` with the given type and description; failure changes nothing; the call is recorded |
| `Api.Vault.DisableAuth` | vault/resource_github_auth_backend.go:107 | success removes the mount `path + "/"` and the configuration stored under it; failure changes nothing; the call is recorded |
| `Api.Vault.Write` | vault/resource_github_auth_backend.go:177 | success stores the payload at the endpoint; failure changes nothing; the mount table is untouched; the call is recorded |
| `Github.IsGithubAuthBackendPresent` | vault/github.go:8-24 | the result is true iff the listing succeeds and an entry keyed exactly `path + "/"` has type "github", whatever order the scan takes; the error is nil iff the listing succeeds, so absence is `(false, nil)`; a failed listing gives `(false, "error reading from Vault: " + cause)`; nothing is modified |
| `Github.GithubMountAtKey` | vault/github.go:14-20 | presence holds iff the entry at `path + "/"` exists and has type "github": an entry of another type there, or a github entry at any other key, gives false |
| `Github.EnabledIsPresent` | vault/github.go:14-20 | after a github mount is enabled at a path, the presence check's condition holds for that path |
| `Github.DisabledIsAbsent` | vault/github.go:14-20 | after the mount at a path is removed, the presence check's condition fails for that path |
| `Github.GithubConfigEndpoint` | vault/github.go:26-28 | the endpoint starts with "/auth/", ends with "/config" and is 13 characters longer than the path |
| `Github.GithubConfigEndpointPath` | vault/github.go:26-28 | the path is recovered from the endpoint as the text between "/auth/" and "/config" |
| `Github.GithubConfigEndpointInjective` | vault/github.go:26-28 | two paths have the same endpoint iff they are equal |
| `Github.GithubConfigEndpointInMount` | vault/github.go:26-28 | the endpoint lies in the storage namespace `/auth/<path>/` of the mount it configures |
| `Strings.SlashSuffix` | vault/resource_github_auth_backend.go:34 | `strings.HasSuffix(value, "/")` holds iff the value is non-empty and its last character is '/' |
| `Resource.ValidatePath` | vault/resource_github_auth_backend.go:32-38 | never a warning; exactly one error, "cannot write to a path ending in '/'", iff the value ends in '/', otherwise none |
| `Resource.DefaultPathIsValid` | vault/resource_github_auth_backend.go:31 | the default path "github" passes the validator |
| `Resource.ConfigurationPayload` | vault/resource_github_auth_backend.go:162-175 | the payload always has `base_url`, `bypass_github_mfa`, `organization`, `token`; it has `ttl` (and separately `max_ttl`) iff that attribute is set non-empty, holding that value; no other key |
| `Resource.GithubAuthBackend.Read` | vault/resource_github_auth_backend.go:116-154 | listing ok: no error, and the id is cleared iff the mount is absent, otherwise unchanged; listing failed: the error "unable to check auth backends in Vault for path <id>: error reading from Vault: <cause>" and the id unchanged; the server is not touched |
| `Resource.GithubAuthBackend.Update` | vault/resource_github_auth_backend.go:156-201 | exactly one write, of the payload, to the endpoint of the current id; write failed: the error "error updating configuration to Vault for path <id>: <cause>", id unchanged, Read not run; write ok: exactly Read's outcome (no error and the id cleared iff the mount is absent when the listing succeeds, Read's error otherwise); mounts untouched |
| `Resource.GithubAuthBackend.Create` | vault/resource_github_auth_backend.go:80-98 | enables a "github" mount at the declared path first; enable failed: the error "error writing to Vault: <cause>", id unchanged, no write, server unchanged; enable ok: id == path even if the following write fails, exactly one write follows, the mount is present, and the result is nil iff the write and the listing both succeed |
| `Resource.GithubAuthBackend.Delete` | vault/resource_github_auth_backend.go:100-114 | one disable call on the current id; failure gives the error "error disabling auth from Vault: <cause>" and changes nothing; success returns nil, removes the mount and the configuration under it, and keeps every other stored configuration; the id is not touched either way |
| `Resource.CreateThenRead` | vault/resource_github_auth_backend.go:80-154 | when Create succeeds, the Read after it succeeds too, the id equals the declared path and the github mount is present |
| `Resource.DeleteThenRead` | vault/resource_github_auth_backend.go:100-154 | when Delete and the listing succeed, the Read after it returns no error and clears the id |

## Left out

- `main.go` only hands the provider to Terraform's plugin server; there is no logic to model.
- The Vault HTTP client is replaced by the abstract `Vault` class. Which enable, disable and
  write calls fail, and with what message, is nondeterministic; the server's own rules are not modelled. For example,
  Vault refuses to enable a path that is already mounted, and the model lets such an enable
  fail but does not force it to.
- Whether listing the mounts fails is a field of the server (`listOutcome`) that the handlers
  read but never change. Two listings in one run (Create's own Read, then a later Read) see
  the same outcome unless the server state changes in between; a listing that fails only
  sometimes within one such run is not modelled.
- Api.Vault.DisableAuth: it drops every configuration under `/auth/<path>/`, as Vault discards
  a mount's storage. The provider never relies on this; only `Delete` mentions it.
- Terraform's schema machinery is not modelled: required and optional attributes, `ForceNew`,
  applying the default, when the validator runs, and `d.Get` type assertions. The declared
  attributes arrive as one `Config` value. An optional string that was not given reads as `""`.
  `GetOk` is modelled only for strings, as "set and non-empty".
- `bypass_github_mfa` and `token` are read at vault/resource_github_auth_backend.go:164 and 166
  but are not in the schema. The model carries them as uninterpreted values that are always
  sent.
- Resource.ValidatePath: the attribute-name argument `k` of the ValidateFunc is unused by the
  source and is omitted.
- The `log.Printf` debug output.
- The commented-out group and user handling (vault/resource_github_auth_backend.go:134-150,
  182-198, 203-263).
