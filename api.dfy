/**
 * The part of the Vault API client the provider calls: `Sys().ListAuth`, `Sys().EnableAuth`,
 * `Sys().DisableAuth` and `Logical().Write`. The server behind it is abstract: a table of
 * enabled auth mounts and a store of configuration payloads. Every call may fail for reasons
 * the provider cannot see (network, permissions, server errors). A call that changes the
 * server fails nondeterministically, carrying a message of the transport's choosing; whether
 * listing the mounts fails is part of the server's state (`listOutcome`), so that what a
 * listing returns can be stated exactly.
 */
module Api {
  import opened Strings

  /** Go's `error` result: nil, or an error with its message. */
  datatype Outcome = Pass | Fail(error: string)

  /** What ListAuth reports about one enabled auth mount (the fields the provider uses). */
  datatype MountOutput = MountOutput(authType: string, description: string)

  /**
   * A value in a payload sent to Vault. Attribute values the provider reads as strings are
   * `Str`; a value whose shape the provider never inspects is `Unmodelled`, known only by
   * its identity.
   */
  datatype Value = Str(s: string) | Unmodelled(handle: nat)

  type Payload = map<string, Value>

  /** A call that changes the server. */
  datatype Request =
    | EnableRequest(path: string, authType: string, description: string)
    | DisableRequest(path: string)
    | WriteRequest(endpoint: string, data: Payload)

  /** A call made to the server together with what it returned. */
  datatype Call = Call(request: Request, outcome: Outcome)

  /** The key under which ListAuth reports the mount at `path`: the path with a trailing "/". */
  function MountKey(path: string): (k: string)
    ensures |k| == |path| + 1 && k[..|path|] == path && HasSuffix(k, "/")
  {
    path + "/"
  }

  /** The namespace of the server's storage that belongs to the auth mount at `path`. */
  function MountNamespace(path: string): (ns: string)
    ensures HasPrefix(ns, "/auth/") && HasSuffix(ns, "/") && |ns| == |path| + 7
  {
    "/auth/" + path + "/"
  }

  class Vault {
    /** Enabled auth mounts, keyed by mount path with its trailing "/". */
    var mounts: map<string, MountOutput>
    /** The last payload written to each configuration endpoint. */
    var configs: map<string, Payload>
    /** What listing the mounts returns in the current state: success, or the transport's error. */
    var listOutcome: Outcome
    /** Every call that changed (or tried to change) the server, oldest first. */
    ghost var history: seq<Call>

    constructor (mounts: map<string, MountOutput>, configs: map<string, Payload>, listOutcome: Outcome)
      ensures this.mounts == mounts && this.configs == configs && this.listOutcome == listOutcome
      ensures history == []
    {
      this.mounts := mounts;
      this.configs := configs;
      this.listOutcome := listOutcome;
      history := [];
    }

    /** Sys().ListAuth(): the mount table, or an error and no table. */
    method ListAuth() returns (auths: map<string, MountOutput>, err: Outcome)
      ensures err == listOutcome
      ensures auths == if err.Pass? then mounts else map[]
    {
      err := listOutcome;
      auths := if err.Pass? then mounts else map[];
    }

    /** Sys().EnableAuth(path, authType, description): mounts a new auth backend at `path`. */
    method EnableAuth(path: string, authType: string, description: string) returns (err: Outcome)
      modifies this
      ensures history == old(history) + [Call(EnableRequest(path, authType, description), err)]
      ensures mounts == if err.Pass? then old(mounts)[MountKey(path) := MountOutput(authType, description)]
                        else old(mounts)
      ensures configs == old(configs) && listOutcome == old(listOutcome)
    {
      err := *;
      if err.Pass? {
        mounts := mounts[MountKey(path) := MountOutput(authType, description)];
      }
      history := history + [Call(EnableRequest(path, authType, description), err)];
    }

    /**
     * Sys().DisableAuth(path): unmounts the auth backend at `path`; the server discards
     * everything stored under that mount with it.
     */
    method DisableAuth(path: string) returns (err: Outcome)
      modifies this
      ensures history == old(history) + [Call(DisableRequest(path), err)]
      ensures mounts == if err.Pass? then old(mounts) - {MountKey(path)} else old(mounts)
      ensures configs == if err.Pass? then Discard(old(configs), MountNamespace(path)) else old(configs)
      ensures listOutcome == old(listOutcome)
    {
      err := *;
      if err.Pass? {
        mounts := mounts - {MountKey(path)};
        configs := Discard(configs, MountNamespace(path));
      }
      history := history + [Call(DisableRequest(path), err)];
    }

    /** Logical().Write(endpoint, data): stores `data` at `endpoint`. */
    method Write(endpoint: string, data: Payload) returns (err: Outcome)
      modifies this
      ensures history == old(history) + [Call(WriteRequest(endpoint, data), err)]
      ensures mounts == old(mounts) && listOutcome == old(listOutcome)
      ensures configs == if err.Pass? then old(configs)[endpoint := data] else old(configs)
    {
      err := *;
      if err.Pass? {
        configs := configs[endpoint := data];
      }
      history := history + [Call(WriteRequest(endpoint, data), err)];
    }
  }

  /** The store without the endpoints under `namespace`; everything else is kept as it was. */
  function Discard(configs: map<string, Payload>, namespace: string): (r: map<string, Payload>)
    ensures forall e :: e in r <==> e in configs && !HasPrefix(e, namespace)
    ensures forall e :: e in r ==> r[e] == configs[e]
  {
    map e | e in configs && !HasPrefix(e, namespace) :: configs[e]
  }
}
