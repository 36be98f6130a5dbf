/**
 The agent sidecar (pkg/inject/sidecar.go, pkg/config/ca/ca.go): injecting it into an
 application's deployment, refreshing it, and taking it out again.
 */
module Sidecar {
  import opened Text
  import opened CommonSpec
  import opened Arguments
  import Names
  import Tags

  const LABEL := "sidecar.jaegertracing.io/injected"
  const AGENT := "jaeger-agent"
  const SERVICE_NAME := "JAEGER_SERVICE_NAME"
  const PROPAGATION := "JAEGER_PROPAGATION"
  const CA_BUNDLE_PATH := "/etc/pki/ca-trust/extracted/pem"
  const SERVICE_CA_PATH := "/etc/pki/ca-trust/source/service-ca"

  datatype EnvVar = EnvVar(name: string, value: string)
  datatype Port = Port(name: string, number: int)

  datatype Container = Container(
    name: string, image: string, args: seq<string>, env: seq<EnvVar>, envFrom: seq<string>, ports: seq<Port>,
    resources: Resources, securityContext: Option<string>, mounts: seq<VolumeMount>, probe: Option<int>)

  /** An application's deployment; `annotations` is None for a nil map. */
  datatype Deployment = Deployment(
    namespace: string, name: string,
    labels: map<string, string>, annotations: Option<map<string, string>>,
    templateLabels: map<string, string>,
    containers: seq<Container>, volumes: seq<Volume>, pullSecrets: seq<LocalObjectReference>)

  /** What a Jaeger instance contributes; `options` is Spec.Agent.Options.ToArgs(). */
  datatype Instance = Instance(
    name: string, namespace: string, options: seq<string>, image: string,
    agentSpec: Spec, commonSpec: Spec, securityContext: Option<string>, deleting: bool)

  datatype Platform = Platform(openShift: bool, proxyVars: seq<EnvVar>)

  /** The data of the config maps a container's environment is read from. */
  type ConfigData = seq<map<string, string>>

  // --- Which container is the agent --------------------------------------------------------

  function AgentIndex(cs: seq<Container>): (i: int)
    ensures -1 <= i < |cs|
    ensures i >= 0 ==> cs[i].name == AGENT && forall j :: 0 <= j < i ==> cs[j].name != AGENT
    ensures i == -1 ==> forall j :: 0 <= j < |cs| ==> cs[j].name != AGENT
  {
    if cs == [] then -1
    else if cs[0].name == AGENT then 0
    else
      var rest := AgentIndex(cs[1..]);
      if rest == -1 then -1 else rest + 1
  }

  lemma AgentIndexIs(cs: seq<Container>, i: nat)
    requires i < |cs| && cs[i].name == AGENT && forall j :: 0 <= j < i ==> cs[j].name != AGENT
    ensures AgentIndex(cs) == i
  {
  }

  /** getContainerName: the one container besides the agent, when there is exactly one. */
  function ContainerName(cs: seq<Container>, idx: int): string
    requires -1 <= idx < |cs|
  {
    if idx == -1 && |cs| == 1 then cs[0].name
    else if idx > -1 && |cs| - 1 == 1 then cs[1 - idx].name
    else ""
  }

  predicate PortAvailable(port: int, cs: seq<Container>) {
    forall c :: c in cs && c.name != AGENT ==> forall p :: p in c.ports ==> p.number != port
  }

  // --- decorate ----------------------------------------------------------------------------

  /** The service name decorate derives from the pod template's labels. */
  function AppName(labels: map<string, string>, namespace: string): Option<string> {
    var ns := if |namespace| > 0 then "." + namespace else ".default";
    if "app.kubernetes.io/instance" in labels then Some(labels["app.kubernetes.io/instance"] + ns)
    else if "app.kubernetes.io/name" in labels then Some(labels["app.kubernetes.io/name"] + ns)
    else if "app" in labels then Some(labels["app"] + ns)
    else None
  }

  predicate HasEnv(name: string, vars: seq<EnvVar>) { exists v :: v in vars && v.name == name }

  predicate HasKey(key: string, data: ConfigData) { exists m :: m in data && key in m }

  function WithVar(vars: seq<EnvVar>, name: string, value: string, data: ConfigData): seq<EnvVar> {
    if HasEnv(name, vars) || HasKey(name, data) then vars else vars + [EnvVar(name, value)]
  }

  function DecoratedEnv(vars: seq<EnvVar>, app: string, data: ConfigData): seq<EnvVar> {
    WithVar(WithVar(vars, SERVICE_NAME, app, data), PROPAGATION, "jaeger,b3,w3c", data)
  }

  function DecoratedContainer(c: Container, app: string, data: ConfigData): Container {
    c.(env := DecoratedEnv(c.env, app, data))
  }

  function DecoratedContainers(d: Deployment, data: ConfigData): (r: seq<Container>)
    ensures |r| == |d.containers|
    ensures forall i :: 0 <= i < |r| ==> r[i] == d.containers[i].(env := r[i].env)
  {
    var app := AppName(d.templateLabels, d.namespace);
    if app.None? then d.containers
    else seq(|d.containers|, i requires 0 <= i < |d.containers| => DecoratedContainer(d.containers[i], app.value, data))
  }

  const PROMETHEUS: map<string, string> := map["prometheus.io/scrape" := "true", "prometheus.io/port" := "14271"]

  function Annotated(annotations: map<string, string>): map<string, string> { PROMETHEUS + annotations }

  lemma WithVarTwice(vars: seq<EnvVar>, name: string, value: string, data: ConfigData)
    ensures WithVar(WithVar(vars, name, value, data), name, value, data) == WithVar(vars, name, value, data)
    ensures forall n :: HasEnv(n, vars) ==> HasEnv(n, WithVar(vars, name, value, data))
  {
    var r := WithVar(vars, name, value, data);
    if r != vars {
      assert r[|r| - 1] in r;
      assert HasEnv(name, r);
    }
    forall n | HasEnv(n, vars) ensures HasEnv(n, r) {
      var v :| v in vars && v.name == n;
      assert v in r;
    }
  }

  /** Decorating a decorated container adds nothing. */
  lemma DecoratedTwice(c: Container, app: string, data: ConfigData)
    ensures DecoratedContainer(DecoratedContainer(c, app, data), app, data) == DecoratedContainer(c, app, data)
  {
    var e1 := WithVar(c.env, SERVICE_NAME, app, data);
    var e2 := WithVar(e1, PROPAGATION, "jaeger,b3,w3c", data);
    WithVarTwice(c.env, SERVICE_NAME, app, data);
    WithVarTwice(e1, PROPAGATION, "jaeger,b3,w3c", data);
    if !HasKey(SERVICE_NAME, data) {
      if HasEnv(SERVICE_NAME, c.env) {
        assert HasEnv(SERVICE_NAME, e1);
      } else {
        assert e1[|e1| - 1] in e1;
        assert HasEnv(SERVICE_NAME, e1);
      }
      assert HasEnv(SERVICE_NAME, e2);
    }
    assert WithVar(e2, SERVICE_NAME, app, data) == e2;
  }

  // --- The agent container -----------------------------------------------------------------

  /** GetNameForHeadlessCollectorService */
  function HeadlessCollector(name: string): string {
    Names.DnsNameOf(Names.Suffixed(name, "-collector-headless", 63))
  }

  const REPORTER := "--reporter.grpc.host-port="

  function ReporterArg(j: Instance): string {
    REPORTER + ("dns:///" + HeadlessCollector(j.name) + "." + j.namespace + ".svc:14250")
  }

  /** Arguments that are added unless one with the prefix is there. */
  function OrAdd(prefix: string, args: seq<string>, more: seq<string>): seq<string> {
    if FindItem(prefix, args) == "" then args + more else args
  }

  function WithReporter(j: Instance): seq<string> { OrAdd(REPORTER, j.options, [ReporterArg(j)]) }

  const TLS_ENABLED := "--reporter.grpc.tls.enabled="

  function TlsArgs(): seq<string> {
    [TLS_ENABLED + "true", "--reporter.grpc.tls.ca=" + (SERVICE_CA_PATH + "/service-ca.crt")]
  }

  function WithTls(args: seq<string>, openShift: bool): seq<string> {
    if openShift then OrAdd(TLS_ENABLED, args, TlsArgs()) else args
  }

  function BaseArgs(j: Instance, env: Platform): seq<string> { WithTls(WithReporter(j), env.openShift) }

  function DefaultTags(name: string, namespace: string, container: string): Tags.TagMap {
    var base := map["cluster" := "undefined", "deployment.name" := name, "pod.namespace" := namespace,
                    "pod.name" := "${POD_NAME:}", "host.ip" := "${HOST_IP:}"];
    if container != "" then base["container.name" := container] else base
  }

  function DefaultTagsOf(d: Deployment): Tags.TagMap {
    DefaultTags(d.name, d.namespace, ContainerName(d.containers, AgentIndex(d.containers)))
  }

  /** None where parsing the existing agent's tags panics. */
  function AgentTags(d: Deployment): Option<Tags.TagMap> {
    var idx := AgentIndex(d.containers);
    if idx == -1 then Some(DefaultTagsOf(d))
    else
      var existing := Tags.Parsed(d.containers[idx].args);
      if existing.None? then None else Some(existing.value + DefaultTagsOf(d))
  }

  ghost function AgentArgs(base: seq<string>, tags: Tags.TagMap): seq<string> {
    Sort(if FindItem(Tags.TAGS_FLAG, base) == "" then base + [Tags.TAGS_FLAG + Tags.Printed(tags)] else base)
  }

  function MountsBelow(spec: Spec, path: string): bool { exists m :: m in spec.volumeMounts && path <= m.path }

  function TrustedCAName(name: string): string { name + "-trusted-ca" }
  function ServiceCAName(name: string): string { name + "-service-ca" }

  function WithVolume(spec: Spec, name: string, path: string): Spec {
    spec.(volumes := Dedup(spec.volumes + [Volume(name, "configmap " + name)], {}, VolumeName),
          volumeMounts := Dedup(spec.volumeMounts + [VolumeMount(name, path)], {}, MountName))
  }

  /** ca.Update followed by ca.AddServiceCA on the agent's own spec. */
  function AgentVolumes(j: Instance, env: Platform): Spec {
    var s1 := if !env.openShift || MountsBelow(j.commonSpec, CA_BUNDLE_PATH) then j.agentSpec
              else WithVolume(j.agentSpec, TrustedCAName(j.name), CA_BUNDLE_PATH);
    if !env.openShift || MountsBelow(j.commonSpec, SERVICE_CA_PATH) then s1
    else WithVolume(s1, ServiceCAName(j.name), SERVICE_CA_PATH)
  }

  function AgentEnv(env: Platform): seq<EnvVar> {
    [EnvVar("POD_NAME", "metadata.name"), EnvVar("HOST_IP", "status.hostIP")] + env.proxyVars
  }

  /** The options from which the agent's ports are read. */
  datatype PortOptions = PortOptions(zipkin: string, rest: string, compact: string, binary: string, admin: string,
      oldAdmin: string)

  function AgentPortOptions(): PortOptions {
    PortOptions("processor.zipkin-compact" + HOST_PORT, "http-server.host-port", "processor.jaeger-compact" + HOST_PORT,
                "processor.jaeger-binary" + HOST_PORT, ADMIN_HOST_PORT, ADMIN_HTTP_PORT)
  }

  const HOST_PORT := ".server-host-port"

  function PortsFrom(f: PortOptions, args: seq<string>): seq<Port> {
    [Port("zk-compact-trft", GetPort("--" + f.zipkin + "=", args, 5775)),
     Port("config-rest", GetPort("--" + f.rest + "=", args, 5778)),
     Port("jg-compact-trft", GetPort("--" + f.compact + "=", args, 6831)),
     Port("jg-binary-trft", GetPort("--" + f.binary + "=", args, 6832)),
     Port("admin-http", AdminFrom(f, args))]
  }

  function AdminFrom(f: PortOptions, args: seq<string>): int {
    FirstPort("--" + f.admin + "=", "--" + f.oldAdmin + "=", args, 14271)
  }

  /** Everything about the sidecar that depends on the instance and the platform alone. */
  datatype Agent = Agent(
    instance: string, mark: string, base: seq<string>, adminPort: int,
    definition: Container, volumes: seq<Volume>, pullSecrets: seq<LocalObjectReference>)

  function AgentOf(j: Instance, env: Platform): (a: Agent)
    ensures a.definition.name == AGENT && a.definition.envFrom == []
    ensures a.instance == j.name && a.mark == Names.LabelForm(j.name)
    ensures a.volumes == AgentVolumes(j, env).volumes && a.pullSecrets == j.agentSpec.imagePullSecrets
  {
    AgentWith(j, env, BaseArgs(j, env))
  }

  /** The agent with the given arguments, before its tags are added. */
  function AgentWith(j: Instance, env: Platform, base: seq<string>): Agent {
    var spec := AgentVolumes(j, env);
    Agent(j.name, Names.LabelForm(j.name), base, AdminFrom(AgentPortOptions(), base),
          Container(AGENT, j.image, [], AgentEnv(env), [], PortsFrom(AgentPortOptions(), base),
                    Merged([j.agentSpec, j.commonSpec]).resources, j.securityContext, spec.volumeMounts, None),
          spec.volumes, j.agentSpec.imagePullSecrets)
  }

  ghost function AgentContainer(a: Agent, tags: Tags.TagMap, probe: bool): Container {
    a.definition.(args := AgentArgs(a.base, tags), probe := if probe then Some(a.adminPort) else None)
  }

  // --- Sidecar -----------------------------------------------------------------------------

  predicate AssignedElsewhere(a: Agent, d: Deployment) { LABEL in d.labels && d.labels[LABEL] != a.instance }

  predicate TagsNeeded(a: Agent) { FindItem(Tags.TAGS_FLAG, a.base) == "" }

  /** Injection completes; otherwise it panics (nil annotations, or tags without '='). */
  predicate Completes(a: Agent, d: Deployment) {
    AssignedElsewhere(a, d) || (d.annotations.Some? && (TagsNeeded(a) ==> AgentTags(d).Some?))
  }

  /** The tags printed for the agent; unused when the instance sets its own. */
  function TagsFor(a: Agent, d: Deployment): Tags.TagMap
    requires Completes(a, d) && !AssignedElsewhere(a, d)
  {
    if TagsNeeded(a) then AgentTags(d).value else map[]
  }

  /** The agent goes where one is already, else at the end. */
  function Place(cs: seq<Container>, agent: Container): seq<Container> {
    var idx := AgentIndex(cs);
    if idx >= 0 then cs[idx := agent] else cs + [agent]
  }

  ghost function AgentFor(a: Agent, data: ConfigData, d: Deployment): Container
    requires Completes(a, d) && !AssignedElsewhere(a, d)
  {
    AgentContainer(a, TagsFor(a, d), PortAvailable(a.adminPort, DecoratedContainers(d, data)))
  }

  ghost function InjectedBy(a: Agent, data: ConfigData, d: Deployment): Deployment
    requires Completes(a, d)
  {
    if AssignedElsewhere(a, d) then d
    else
      d.(labels := d.labels[LABEL := a.mark],
         annotations := Some(Annotated(d.annotations.value)),
         containers := Place(DecoratedContainers(d, data), AgentFor(a, data, d)),
         volumes := Dedup(d.volumes + a.volumes, {}, VolumeName),
         pullSecrets := Dedup(d.pullSecrets + a.pullSecrets, {}, SecretName))
  }

  // --- CleanSidecar ------------------------------------------------------------------------

  function ManagedVolumes(instance: string, openShift: bool): set<string> {
    if openShift then {TrustedCAName(instance), ServiceCAName(instance)} else {}
  }

  function Without(vs: seq<Volume>, names: set<string>): seq<Volume> {
    if vs == [] then []
    else if vs[0].name in names then Without(vs[1..], names)
    else [vs[0]] + Without(vs[1..], names)
  }

  function WithoutAgent(cs: seq<Container>): seq<Container> {
    var i := AgentIndex(cs);
    if i == -1 then cs else cs[..i] + cs[i + 1..]
  }

  function Cleaned(instance: string, openShift: bool, d: Deployment): Deployment {
    d.(labels := d.labels - {LABEL},
       containers := WithoutAgent(d.containers),
       volumes := Without(d.volumes, ManagedVolumes(instance, openShift)))
  }
}
