/** What one dynamic registration cycle sends: where the component definitions
    come from, how to read them, and the fixed CRD filter (main.go, `registerWorkloads`). */
module Components {
  import opened Stdlib

  datatype Option<T> = None | Some(value: T)

  /** Values defined in libraries outside this model, kept uninterpreted:
      `adapter.Manifests` (the default generation method),
      `smp.ServiceMesh_Type_name[CILIUM_SERVICE_MESH]` (the mesh name) and
      `config.CiliumOperation` (the operation the components belong to). */
  datatype Library = Library(manifests: string, meshName: string, operation: string)

  const COMP_GEN_URL := "COMP_GEN_URL"
  const COMP_GEN_METHOD := "COMP_GEN_METHOD"

  /** The build's version when none is linked in. */
  const DEFAULT_VERSION := "edge"

  const CHART_URL_PREFIX := "https://raw.githubusercontent.com/cilium/cilium/"
  const CHART_URL_SUFFIX := "/install/kubernetes/cilium/Chart.yaml"

  /** The minutes the server is given to generate and store the components. */
  const TIMEOUT_IN_MINUTES := 30

  /** The upstream Helm chart metadata for a release of Cilium. */
  function DefaultChartUrl(version: string): string
  {
    CHART_URL_PREFIX + version + CHART_URL_SUFFIX
  }

  /** `t` occurs in `s` starting at index `i`. */
  predicate OccursAt(s: string, t: string, i: int)
  {
    0 <= i <= |s| - |t| && s[i..i + |t|] == t
  }

  /** The default URL names the version it was built for. */
  lemma DefaultChartUrlContainsVersion(version: string)
    ensures exists i :: OccursAt(DefaultChartUrl(version), version, i)
  {
    var url := DefaultChartUrl(version);
    BetweenOfConcat(CHART_URL_PREFIX, version, CHART_URL_SUFFIX);
    assert OccursAt(url, version, |CHART_URL_PREFIX|);
  }

  /** The text of `s` between a leading `head` and a trailing `tail`, when it has both. */
  function Between(s: string, head: string, tail: string): Option<string>
  {
    if |head| + |tail| <= |s| && s[..|head|] == head && s[|s| - |tail|..] == tail
    then Some(s[|head|..|s| - |tail|])
    else None
  }

  lemma BetweenOfConcat(head: string, mid: string, tail: string)
    ensures Between(head + mid + tail, head, tail) == Some(mid)
  {
    var s := head + mid + tail;
    assert s[..|head|] == head && s[|s| - |tail|..] == tail;
    assert s[|head|..|s| - |tail|] == mid;
  }

  lemma ConcatOfBetween(s: string, head: string, tail: string, mid: string)
    requires Between(s, head, tail) == Some(mid)
    ensures head + mid + tail == s
  {
    var p, q := |head|, |s| - |tail|;
    assert s == s[..p] + s[p..q] + s[q..];
  }

  /** Reads the version back out of a default chart URL; None for any other URL. */
  function ChartVersion(url: string): Option<string>
  {
    Between(url, CHART_URL_PREFIX, CHART_URL_SUFFIX)
  }

  /** ChartVersion inverts DefaultChartUrl ... */
  lemma ChartVersionOfDefault(version: string)
    ensures ChartVersion(DefaultChartUrl(version)) == Some(version)
  {
    BetweenOfConcat(CHART_URL_PREFIX, version, CHART_URL_SUFFIX);
  }

  /** ... and every URL it accepts is the default URL of the version it reads. */
  lemma DefaultOfChartVersion(url: string, version: string)
    requires ChartVersion(url) == Some(version)
    ensures DefaultChartUrl(version) == url
  {
    ConcatOfBetween(url, CHART_URL_PREFIX, CHART_URL_SUFFIX, version);
  }

  /** Different versions never share a default URL. */
  lemma DefaultChartUrlInjective(v1: string, v2: string)
    requires DefaultChartUrl(v1) == DefaultChartUrl(v2)
    ensures v1 == v2
  {
    ChartVersionOfDefault(v1);
    ChartVersionOfDefault(v2);
  }

  /** The two generation methods an override may name. */
  predicate IsRecognisedMethod(gm: string)
  {
    gm == "Helm" || gm == "Manifest"
  }

  /** Where the component definitions come from and how to read them. */
  datatype Source = Source(url: string, generationMethod: string)

  /** The source of one cycle. COMP_GEN_URL, when set, is used as it is, read with
      COMP_GEN_METHOD if that names a recognised method and with `lib.manifests`
      otherwise. Without COMP_GEN_URL, the default chart of `version` is read with
      `lib.manifests`, and COMP_GEN_METHOD plays no part. */
  function ResolveSource(env: Environment, version: string, lib: Library): (src: Source)
    ensures src.generationMethod == "Helm" || src.generationMethod == "Manifest" || src.generationMethod == lib.manifests
    ensures var url := Getenv(env, COMP_GEN_URL);
            var gm := Getenv(env, COMP_GEN_METHOD);
            url != "" ==> src == Source(url, if IsRecognisedMethod(gm) then gm else lib.manifests)
    ensures Getenv(env, COMP_GEN_URL) == "" ==> src == Source(DefaultChartUrl(version), lib.manifests)
  {
    if Getenv(env, COMP_GEN_URL) != "" then
      var gm := Getenv(env, COMP_GEN_METHOD);
      Source(Getenv(env, COMP_GEN_URL), if IsRecognisedMethod(gm) then gm else lib.manifests)
    else
      Source(DefaultChartUrl(version), lib.manifests)
  }

  /** Without a URL override the result does not depend on COMP_GEN_METHOD at all. */
  lemma MethodIgnoredWithoutUrl(env: Environment, gm: string, version: string, lib: Library)
    requires Getenv(env, COMP_GEN_URL) == ""
    ensures ResolveSource(env[COMP_GEN_METHOD := gm], version, lib) == ResolveSource(env, version, lib)
    ensures ResolveSource(env - {COMP_GEN_METHOD}, version, lib) == ResolveSource(env, version, lib)
  {
  }

  /** Without overrides and for version "1.15.0", the 1.15.0 chart is read with the
      default method: the URL is
      https://raw.githubusercontent.com/cilium/cilium/1.15.0/install/kubernetes/cilium/Chart.yaml. */
  lemma DefaultSourceScenario(lib: Library)
    ensures ResolveSource(map[], "1.15.0", lib)
            == Source("https://raw.githubusercontent.com/cilium/cilium/" + "1.15.0" + "/install/kubernetes/cilium/Chart.yaml",
                      lib.manifests)
  {
  }

  /** A build with no version linked in reads the chart of the "edge" version. */
  lemma DefaultVersionScenario(lib: Library)
    ensures ResolveSource(map[], DEFAULT_VERSION, lib)
            == Source("https://raw.githubusercontent.com/cilium/cilium/" + "edge" + "/install/kubernetes/cilium/Chart.yaml",
                      lib.manifests)
  {
  }

  /** An overridden URL with method "Helm" is read as a Helm chart. */
  lemma HelmOverrideScenario(version: string, lib: Library)
    ensures ResolveSource(map[COMP_GEN_URL := "https://example.com/chart", COMP_GEN_METHOD := "Helm"], version, lib)
            == Source("https://example.com/chart", "Helm")
  {
  }

  /** An overridden URL with no method, or an unrecognised one, falls back to `lib.manifests`. */
  lemma UnrecognisedMethodScenario(version: string, lib: Library)
    ensures ResolveSource(map[COMP_GEN_URL := "https://example.com/chart"], version, lib)
            == Source("https://example.com/chart", lib.manifests)
    ensures ResolveSource(map[COMP_GEN_URL := "https://example.com/chart", COMP_GEN_METHOD := "helm"], version, lib)
            == Source("https://example.com/chart", lib.manifests)
  {
  }

  /** `manifests.CrdFilter`: path expressions, evaluated by the server, that locate
      a CRD's root, kind name, version, group and schema, and the two used to
      iterate over several CRDs; then the keys of the version and group values. */
  datatype CrdFilter = CrdFilter(
    rootFilter: seq<string>,
    nameFilter: seq<string>,
    versionFilter: seq<string>,
    groupFilter: seq<string>,
    specFilter: seq<string>,
    itrFilter: seq<string>,
    itrSpecFilter: seq<string>,
    vField: string,
    gField: string)

  /** All path expressions of a filter, in declaration order. */
  function Expressions(f: CrdFilter): seq<string>
  {
    f.rootFilter + f.nameFilter + f.versionFilter + f.groupFilter
    + f.specFilter + f.itrFilter + f.itrSpecFilter
  }

  /** The filter for Cilium's CRDs. It is a constant: one expression per list,
      each rooted at "$", the two iteration lists equal, and the version and
      group read from the keys "name" and "group". */
  function CiliumCrdFilter(): (f: CrdFilter)
    ensures |f.rootFilter| == |f.nameFilter| == |f.versionFilter| == |f.groupFilter| == 1
    ensures |f.specFilter| == |f.itrFilter| == |f.itrSpecFilter| == 1
    ensures f.itrFilter == f.itrSpecFilter
    ensures f.vField == "name" && f.gField == "group"
    ensures var e := Expressions(f);
            |e| == 7 && forall i :: 0 <= i < |e| ==> e[i] != "" && e[i][0] == '$'
  {
    var root := "$[?(@.kind==\"CustomResourceDefinition\")]";
    var name := "$..[\"spec\"][\"names\"][\"kind\"]";
    var version := "$[0]..spec.versions[0]";
    var group := "$[0]..spec";
    var spec := "$[0]..openAPIV3Schema.properties.spec";
    var itr := "$[?(@.spec.names.kind";
    var f := CrdFilter(
      rootFilter := [root],
      nameFilter := [name],
      versionFilter := [version],
      groupFilter := [group],
      specFilter := [spec],
      itrFilter := [itr],
      itrSpecFilter := [itr],
      vField := "name",
      gField := "group");
    assert Expressions(f) == [root, name, version, group, spec, itr, itr];
    f
  }

  /** `manifests.Config`: the mesh whose components are generated and the filter to use. */
  datatype ManifestConfig = ManifestConfig(name: string, meshVersion: string, filter: CrdFilter)

  /** `adapter.DynamicComponentsConfig`: one dynamic registration request's payload. */
  datatype DynamicComponentsConfig = DynamicComponentsConfig(
    timeoutInMinutes: int,
    url: string,
    generationMethod: string,
    config: ManifestConfig,
    operation: string)

  /** The payload of a cycle: the resolved source, a 30-minute bound, the build's
      version as the mesh version, the library's mesh name and operation, and the
      constant Cilium filter. */
  function ComponentsConfig(env: Environment, version: string, lib: Library): (c: DynamicComponentsConfig)
    ensures c.timeoutInMinutes == 30
    ensures Source(c.url, c.generationMethod) == ResolveSource(env, version, lib)
    ensures c.config.meshVersion == version && c.config.name == lib.meshName
    ensures c.operation == lib.operation
    ensures c.config.filter == CiliumCrdFilter()
  {
    var src := ResolveSource(env, version, lib);
    DynamicComponentsConfig(
      timeoutInMinutes := TIMEOUT_IN_MINUTES,
      url := src.url,
      generationMethod := src.generationMethod,
      config := ManifestConfig(lib.meshName, version, CiliumCrdFilter()),
      operation := lib.operation)
  }

  /** The payload depends on the environment only through COMP_GEN_URL and COMP_GEN_METHOD. */
  lemma ComponentsConfigReadsOnlyOverrides(e1: Environment, e2: Environment, version: string, lib: Library)
    requires Getenv(e1, COMP_GEN_URL) == Getenv(e2, COMP_GEN_URL)
    requires Getenv(e1, COMP_GEN_METHOD) == Getenv(e2, COMP_GEN_METHOD)
    ensures ComponentsConfig(e1, version, lib) == ComponentsConfig(e2, version, lib)
  {
  }
}
