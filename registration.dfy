/** Registering the adapter's capabilities with the orchestration server
    (main.go, `registerCapabilities`, `registerWorkloads`, `registerDynamicCapabilities`). */
module Registration {
  import opened Stdlib
  import opened Settings
  import opened Components

  /** A remote call the adapter makes: the server address, the adapter's own
      address for callbacks, and for a dynamic registration its payload. */
  datatype Call =
    | RegisterStaticWorkloads(server: string, adapter: string)
    | RegisterStaticTraits(server: string, adapter: string)
    | RegisterWorkloadsDynamically(server: string, adapter: string, config: DynamicComponentsConfig)

  /** A call together with whether the remote side reported an error. */
  datatype Attempt = Attempt(call: Call, failed: bool)

  /** The calls of a sequence of attempts, in order. */
  function Calls(attempts: seq<Attempt>): (calls: seq<Call>)
    ensures |calls| == |attempts|
  {
    if attempts == [] then [] else Calls(attempts[..|attempts| - 1]) + [attempts[|attempts| - 1].call]
  }

  /** The dynamic registration of one cycle, as `registerWorkloads` issues it
      from the environment it sees. */
  function WorkloadRequest(env: Environment, version: string, port: string, lib: Library): Call
  {
    RegisterWorkloadsDynamically(MesheryServerAddress(env), AdapterAddress(env, port),
                                 ComponentsConfig(env, version, lib))
  }

  /** The requests of the eager cycle and of the cycles after the first `k` ticks:
      the eager one sees `first`, the one after tick i sees `ticks[i - 1]`. */
  function Cycles(first: Environment, ticks: seq<Environment>, k: nat, version: string, port: string, lib: Library)
    : (calls: seq<Call>)
    requires k <= |ticks|
    ensures |calls| == k + 1
  {
    if k == 0 then [WorkloadRequest(first, version, port, lib)]
    else Cycles(first, ticks, k - 1, version, port, lib) + [WorkloadRequest(ticks[k - 1], version, port, lib)]
  }

  /** Cycle 0 is the eager registration and cycle i > 0 the one after tick i. */
  lemma {:induction false} CyclesAt(first: Environment, ticks: seq<Environment>, k: nat, i: nat,
                                    version: string, port: string, lib: Library)
    requires k <= |ticks| && i <= k
    ensures Cycles(first, ticks, k, version, port, lib)[i]
            == WorkloadRequest(if i == 0 then first else ticks[i - 1], version, port, lib)
  {
    if i < k {
      CyclesAt(first, ticks, k - 1, i, version, port, lib);
    }
  }

  /** The orchestration server as the adapter sees it: every call it has been
      sent, in order, with its outcome. The outcome of a call is not the
      adapter's to decide, so each call may succeed or fail. */
  class Registry {
    var attempts: seq<Attempt>

    constructor ()
      ensures attempts == []
    {
      attempts := [];
    }

    /** `oam.RegisterWorkloads`: register the mesh's fixed workload definitions. */
    method RegisterWorkloads(server: string, adapter: string) returns (failed: bool)
      modifies this
      ensures attempts == old(attempts) + [Attempt(RegisterStaticWorkloads(server, adapter), failed)]
    {
      failed :| true;
      attempts := attempts + [Attempt(RegisterStaticWorkloads(server, adapter), failed)];
    }

    /** `oam.RegisterTraits`: register the mesh's fixed trait definitions. */
    method RegisterTraits(server: string, adapter: string) returns (failed: bool)
      modifies this
      ensures attempts == old(attempts) + [Attempt(RegisterStaticTraits(server, adapter), failed)]
    {
      failed :| true;
      attempts := attempts + [Attempt(RegisterStaticTraits(server, adapter), failed)];
    }

    /** `adapter.RegisterWorkLoadsDynamically`: generate components from the
        payload's source and register them. */
    method RegisterWorkLoadsDynamically(server: string, adapter: string, config: DynamicComponentsConfig)
      returns (failed: bool)
      modifies this
      ensures attempts == old(attempts) + [Attempt(RegisterWorkloadsDynamically(server, adapter, config), failed)]
    {
      failed :| true;
      attempts := attempts + [Attempt(RegisterWorkloadsDynamically(server, adapter, config), failed)];
    }
  }

  lemma CallsAppend(attempts: seq<Attempt>, a: Attempt)
    ensures Calls(attempts + [a]) == Calls(attempts) + [a.call]
  {
    assert (attempts + [a])[..|attempts|] == attempts;
  }

  lemma AppendOne(calls: seq<Call>, start: seq<Call>, done: seq<Call>, next: seq<Call>, request: Call)
    requires calls == (start + done) + [request] && next == done + [request]
    ensures calls == start + next
  {
  }

  /** `registerCapabilities`: the static workloads, then the static traits, both
      to the same server from the same adapter address. The traits are
      registered whatever became of the workloads; neither error escapes. */
  method RegisterCapabilities(env: Environment, port: string, registry: Registry)
    modifies registry
    ensures old(registry.attempts) <= registry.attempts
    ensures Calls(registry.attempts)
            == Calls(old(registry.attempts))
               + [RegisterStaticWorkloads(MesheryServerAddress(env), AdapterAddress(env, port)),
                  RegisterStaticTraits(MesheryServerAddress(env), AdapterAddress(env, port))]
  {
    ghost var before := registry.attempts;
    var workloadsFailed := registry.RegisterWorkloads(MesheryServerAddress(env), ServiceAddress(env) + ":" + port);
    ghost var middle := registry.attempts;
    var traitsFailed := registry.RegisterTraits(MesheryServerAddress(env), ServiceAddress(env) + ":" + port);
    ghost var w := Attempt(RegisterStaticWorkloads(MesheryServerAddress(env), AdapterAddress(env, port)), workloadsFailed);
    ghost var t := Attempt(RegisterStaticTraits(MesheryServerAddress(env), AdapterAddress(env, port)), traitsFailed);
    assert middle == before + [w];
    assert registry.attempts == middle + [t];
    CallsAppend(before, w);
    CallsAppend(middle, t);
  }

  /** `registerWorkloads`: resolve the source into `url` and `gm`, assemble the
      payload and make exactly one dynamic registration call. A failure of that
      call is only logged: nothing is returned and the caller carries on. */
  method RegisterWorkloads(env: Environment, version: string, port: string, lib: Library, registry: Registry)
    modifies registry
    ensures old(registry.attempts) <= registry.attempts
    ensures |registry.attempts| == |old(registry.attempts)| + 1
    ensures Calls(registry.attempts) == Calls(old(registry.attempts)) + [WorkloadRequest(env, version, port, lib)]
  {
    var url: string;
    var gm: string;
    if Getenv(env, COMP_GEN_URL) != "" {
      url := Getenv(env, COMP_GEN_URL);
      if Getenv(env, COMP_GEN_METHOD) == "Helm" || Getenv(env, COMP_GEN_METHOD) == "Manifest" {
        gm := Getenv(env, COMP_GEN_METHOD);
      } else {
        gm := lib.manifests;
      }
    } else {
      url := CHART_URL_PREFIX + version + CHART_URL_SUFFIX;
      gm := lib.manifests;
    }
    var config := DynamicComponentsConfig(
      timeoutInMinutes := TIMEOUT_IN_MINUTES,
      url := url,
      generationMethod := gm,
      config := ManifestConfig(lib.meshName, version, CiliumCrdFilter()),
      operation := lib.operation);
    ghost var before := registry.attempts;
    var failed := registry.RegisterWorkLoadsDynamically(MesheryServerAddress(env), ServiceAddress(env) + ":" + port, config);
    CallsAppend(before, registry.attempts[|registry.attempts| - 1]);
  }

  /** `registerDynamicCapabilities`, up to its k-th tick: one registration before
      any tick, then exactly one per tick, each seeing the environment of its
      own cycle (`first` for the eager one, `ticks[i]` for the one after tick i).
      So k ticks make k + 1 calls, however many of them failed. */
  method RegisterDynamicCapabilities(first: Environment, ticks: seq<Environment>, version: string, port: string,
                                     lib: Library, registry: Registry)
    modifies registry
    ensures old(registry.attempts) <= registry.attempts
    ensures |registry.attempts| == |old(registry.attempts)| + |ticks| + 1
    ensures Calls(registry.attempts) == Calls(old(registry.attempts)) + Cycles(first, ticks, |ticks|, version, port, lib)
  {
    ghost var start := Calls(registry.attempts);
    RegisterWorkloads(first, version, port, lib, registry);
    var k := 0;
    while k < |ticks|
      invariant 0 <= k <= |ticks|
      invariant old(registry.attempts) <= registry.attempts
      invariant |registry.attempts| == |old(registry.attempts)| + k + 1
      invariant Calls(registry.attempts) == start + Cycles(first, ticks, k, version, port, lib)
    {
      // the k-th tick of the 24-hour ticker has arrived
      ghost var done := Cycles(first, ticks, k, version, port, lib);
      RegisterWorkloads(ticks[k], version, port, lib, registry);
      AppendOne(Calls(registry.attempts), start, done, Cycles(first, ticks, k + 1, version, port, lib),
                WorkloadRequest(ticks[k], version, port, lib));
      k := k + 1;
    }
  }
}
