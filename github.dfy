/**
 * Helpers shared by the GitHub auth backend resource: the presence check, which asks Vault
 * whether a GitHub auth backend is mounted at a path, and the name of the backend's
 * configuration endpoint.
 */
module Github {
  import opened Strings
  import opened Api

  /** The auth type a GitHub auth backend is mounted with. */
  const GithubType := "github"

  /** The prefix of the presence check's error when the mount table cannot be listed. */
  const ListErrorPrefix := "error reading from Vault: "

  /**
   * The mount table holds a GitHub auth backend at `path`: some entry is keyed by exactly
   * the path followed by "/" and has type "github".
   */
  predicate GithubMountAt(auths: map<string, MountOutput>, path: string) {
    exists key :: key in auths && auths[key].authType == GithubType && key == MountKey(path)
  }

  /**
   * Only the entry at the key `path + "/"` decides the question: one with another type
   * does not count, and a GitHub entry at any other key does not count.
   */
  lemma GithubMountAtKey(auths: map<string, MountOutput>, path: string)
    ensures GithubMountAt(auths, path) <==>
            MountKey(path) in auths && auths[MountKey(path)].authType == GithubType
  {
  }

  /** Enabling a GitHub mount at `path` makes the presence predicate hold, whatever was there. */
  lemma EnabledIsPresent(auths: map<string, MountOutput>, path: string, description: string)
    ensures GithubMountAt(auths[MountKey(path) := MountOutput(GithubType, description)], path)
  {
    GithubMountAtKey(auths[MountKey(path) := MountOutput(GithubType, description)], path);
  }

  /** Disabling the mount at `path` makes the presence predicate fail, whatever was there. */
  lemma DisabledIsAbsent(auths: map<string, MountOutput>, path: string)
    ensures !GithubMountAt(auths - {MountKey(path)}, path)
  {
  }

  /**
   * isGithubAuthBackendPresent. Lists the mounts and scans them for a GitHub mount keyed by
   * `path + "/"`. Go visits a map in an unspecified order; the scan here takes the keys in
   * an arbitrary order too, and the postcondition fixes the answer for every order.
   * A missing mount is `false` without an error; only a failed listing is an error.
   */
  method IsGithubAuthBackendPresent(client: Vault, path: string) returns (present: bool, err: Outcome)
    ensures present == (client.listOutcome.Pass? && GithubMountAt(client.mounts, path))
    ensures err == if client.listOutcome.Pass? then Pass
                   else Fail(ListErrorPrefix + client.listOutcome.error)
  {
    var auths, listErr := client.ListAuth();
    if listErr.Fail? {
      return false, Fail(ListErrorPrefix + listErr.error);
    }

    var configuredPath := MountKey(path);

    var unvisited := auths.Keys;
    while unvisited != {}
      invariant unvisited <= auths.Keys
      invariant forall key :: key in auths && key !in unvisited ==>
                  !(auths[key].authType == GithubType && key == configuredPath)
      decreases unvisited
    {
      var authBackendPath :| authBackendPath in unvisited;
      if auths[authBackendPath].authType == GithubType && authBackendPath == configuredPath {
        return true, Pass;
      }
      unvisited := unvisited - {authBackendPath};
    }

    return false, Pass;
  }

  /** githubConfigEndpoint: the endpoint the backend's configuration is written to. */
  function GithubConfigEndpoint(path: string): (endpoint: string)
    ensures HasPrefix(endpoint, "/auth/") && HasSuffix(endpoint, "/config")
    ensures |endpoint| == |path| + 13
  {
    "/auth/" + path + "/config"
  }

  /** The path can be read back out of the endpoint, between "/auth/" and "/config". */
  lemma GithubConfigEndpointPath(path: string)
    ensures GithubConfigEndpoint(path)[6..|path| + 6] == path
  {
  }

  /** Distinct mount paths have distinct configuration endpoints. */
  lemma GithubConfigEndpointInjective(p: string, q: string)
    ensures GithubConfigEndpoint(p) == GithubConfigEndpoint(q) <==> p == q
  {
    if GithubConfigEndpoint(p) == GithubConfigEndpoint(q) {
      GithubConfigEndpointPath(p);
      GithubConfigEndpointPath(q);
    }
  }

  /** The configuration endpoint lies in the storage of the mount it configures. */
  lemma GithubConfigEndpointInMount(path: string)
    ensures HasPrefix(GithubConfigEndpoint(path), MountNamespace(path))
  {
  }
}
