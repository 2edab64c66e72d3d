/** The addresses and flags the adapter reads from its environment
    (main.go, `isDebug`, `mesheryServerAddress`, `serviceAddress`). */
module Settings {
  import opened Stdlib

  const MESHERY_SERVER := "MESHERY_SERVER"
  const SERVICE_ADDR := "SERVICE_ADDR"
  const DEBUG := "DEBUG"

  /** Where the orchestration server is looked for when MESHERY_SERVER is unset. */
  const DEFAULT_SERVER_ADDRESS := "http://localhost:9081"
  /** The host the adapter advertises for itself when SERVICE_ADDR is unset. */
  const DEFAULT_SERVICE_ADDRESS := "localhost"

  /** Debug logging is on exactly when DEBUG is set to the literal "true". */
  function IsDebug(env: Environment): (debug: bool)
    ensures debug <==> DEBUG in env && env[DEBUG] == "true"
  {
    Getenv(env, DEBUG) == "true"
  }

  /** The orchestration server's address: MESHERY_SERVER, given an "http://"
      prefix when it does not start with "http", or the local default when it is
      unset or empty. */
  function MesheryServerAddress(env: Environment): string
  {
    var meshReg := Getenv(env, MESHERY_SERVER);
    if meshReg != "" then
      if HasPrefix(meshReg, "http") then meshReg else "http://" + meshReg
    else
      DEFAULT_SERVER_ADDRESS
  }

  /** The three cases of the server address, and that it always starts with "http". */
  lemma ServerAddressCases(env: Environment)
    ensures var meshReg := Getenv(env, MESHERY_SERVER);
            var addr := MesheryServerAddress(env);
            && HasPrefix(addr, "http")
            && (meshReg == "" ==> addr == DEFAULT_SERVER_ADDRESS)
            && (meshReg != "" && HasPrefix(meshReg, "http") ==> addr == meshReg)
            && (meshReg != "" && !HasPrefix(meshReg, "http") ==> addr == "http://" + meshReg)
  {
  }

  /** Normalising is idempotent: feeding the address back in as MESHERY_SERVER
      yields the same address, whatever the variable held before. */
  lemma ServerAddressIdempotent(env: Environment)
    ensures var addr := MesheryServerAddress(env);
            MesheryServerAddress(env[MESHERY_SERVER := addr]) == addr
  {
  }

  /** A set MESHERY_SERVER always survives as the tail of the address. */
  lemma ServerAddressKeepsSetting(env: Environment)
    requires Getenv(env, MESHERY_SERVER) != ""
    ensures var meshReg := Getenv(env, MESHERY_SERVER);
            var addr := MesheryServerAddress(env);
            |meshReg| <= |addr| && addr[|addr| - |meshReg|..] == meshReg
  {
  }

  /** A host and port with no scheme gets "http://" in front. */
  lemma ServerAddressWithoutScheme()
    ensures MesheryServerAddress(map[MESHERY_SERVER := "registry.internal:9081"])
            == "http://registry.internal:9081"
  {
    var env := map[MESHERY_SERVER := "registry.internal:9081"];
    var s := Getenv(env, MESHERY_SERVER);
    assert s == "registry.internal:9081";
    assert !HasPrefix(s, "http") by { assert s[..4][0] == 'r'; }
    var addr := "http://" + s;
    var expected := "http://registry.internal:9081";
    assert |addr| == |expected|;
    forall i | 0 <= i < |addr| ensures addr[i] == expected[i] {}
  }

  /** The prefix test is on the four letters "http", not on a scheme: a host
      whose name starts with "http" is passed on without one. */
  lemma ServerAddressHttpNamedHost()
    ensures MesheryServerAddress(map[MESHERY_SERVER := "httpbin.internal:9081"])
            == "httpbin.internal:9081"
  {
  }

  /** The address the adapter advertises for callbacks: SERVICE_ADDR verbatim
      when it is set, "localhost" otherwise; never empty. */
  function ServiceAddress(env: Environment): (addr: string)
    ensures addr != ""
    ensures Getenv(env, SERVICE_ADDR) != "" ==> addr == Getenv(env, SERVICE_ADDR)
    ensures Getenv(env, SERVICE_ADDR) == "" ==> addr == DEFAULT_SERVICE_ADDRESS
  {
    var svcAddr := Getenv(env, SERVICE_ADDR);
    if svcAddr != "" then svcAddr else DEFAULT_SERVICE_ADDRESS
  }

  /** `serviceAddress()+":"+port`, the adapter address sent with every registration. */
  function AdapterAddress(env: Environment, port: string): string
  {
    ServiceAddress(env) + ":" + port
  }

  /** The adapter address is the service address, one colon, then the port. */
  lemma AdapterAddressLayout(env: Environment, port: string)
    ensures var svc := ServiceAddress(env);
            var addr := AdapterAddress(env, port);
            |addr| == |svc| + 1 + |port| && addr[..|svc|] == svc
            && addr[|svc|] == ':' && addr[|svc| + 1..] == port
  {
  }

  /** The index of the last ':' in `s`, or -1 when there is none. */
  function LastColon(s: string): (i: int)
    ensures -1 <= i < |s|
    ensures 0 <= i ==> s[i] == ':'
    ensures forall j :: i < j < |s| ==> s[j] != ':'
  {
    if |s| == 0 then -1
    else if s[|s| - 1] == ':' then |s| - 1
    else LastColon(s[..|s| - 1])
  }

  /** Splitting an address at its last colon, the way a receiver recovers host and port. */
  function SplitHostPort(addr: string): (hp: (string, string))
  {
    var i := LastColon(addr);
    if i < 0 then (addr, "") else (addr[..i], addr[i + 1..])
  }

  /** The adapter address splits back into the service address and the port,
      provided the port itself holds no colon. */
  lemma AdapterAddressSplits(env: Environment, port: string)
    requires ':' !in port
    ensures SplitHostPort(AdapterAddress(env, port)) == (ServiceAddress(env), port)
  {
    var svc := ServiceAddress(env);
    var addr := AdapterAddress(env, port);
    AdapterAddressLayout(env, port);
    assert LastColon(addr) == |svc|;
  }
}
