/** What an injection leaves in a deployment (pkg/inject/sidecar.go), container by container. */
module InjectionLaws {
  import opened Text
  import opened CommonSpec
  import opened Arguments
  import opened Sidecar
  import MergeLaws
  import SidecarLaws
  import Names
  import Tags

  // --- The application's containers --------------------------------------------------------

  /** The service name: the instance label before the name label before "app", with the namespace. */
  ghost predicate ServiceNamed(labels: map<string, string>, namespace: string, name: Option<string>) {
    var ns := if namespace == "" then ".default" else "." + namespace;
    name == if "app.kubernetes.io/instance" in labels then Some(labels["app.kubernetes.io/instance"] + ns)
            else if "app.kubernetes.io/name" in labels then Some(labels["app.kubernetes.io/name"] + ns)
            else if "app" in labels then Some(labels["app"] + ns)
            else None
  }

  /** The variable is set in the container or comes from one of its config maps. */
  ghost predicate Provided(name: string, vars: seq<EnvVar>, data: ConfigData) {
    (exists v :: v in vars && v.name == name) || (exists m :: m in data && name in m)
  }

  /** A container besides the agent gets two variables that nothing provides, if a service name can be told. */
  ghost predicate DecoratedFits(d: Deployment, data: ConfigData, c: Container, r: Container) {
    && r == c.(env := r.env)
    && exists app :: ServiceNamed(d.templateLabels, d.namespace, app) && VariablesFit(c.env, data, app, r.env)
  }

  ghost predicate VariablesFit(vars: seq<EnvVar>, data: ConfigData, app: Option<string>, r: seq<EnvVar>) {
    if app.None? then r == vars
    else
      r == vars
        + (if Provided("JAEGER_SERVICE_NAME", vars, data) then [] else [EnvVar("JAEGER_SERVICE_NAME", app.value)])
        + (if Provided("JAEGER_PROPAGATION", vars, data) then [] else [EnvVar("JAEGER_PROPAGATION", "jaeger,b3,w3c")])
  }

  // --- The agent ---------------------------------------------------------------------------

  ghost predicate Starts(args: seq<string>, prefix: string) { exists x :: x in args && prefix <= x }

  /** What the operator adds to the printed options, where they do not say it themselves. */
  ghost predicate ArgumentsFit(j: Instance, openShift: bool, args: seq<string>) {
    var address :=
      "--reporter.grpc.host-port=" + ("dns:///" + HeadlessCollector(j.name) + "." + j.namespace + ".svc:14250");
    var tls := ["--reporter.grpc.tls.enabled=" + "true",
                "--reporter.grpc.tls.ca=" + ("/etc/pki/ca-trust/source/service-ca" + "/service-ca.crt")];
    var reported := j.options + if Starts(j.options, "--reporter.grpc.host-port=") then [] else [address];
    args == reported + if openShift && !Starts(reported, "--reporter.grpc.tls.enabled=") then tls else []
  }

  /** The collector's address names its headless service. */
  lemma HeadlessSays(name: string)
    requires Names.HostLabel(name) && |name| <= 44
    ensures HeadlessCollector(name) == name + "-collector-headless"
  {
    var suffix := "-collector-headless";
    assert Names.HostLabel(name + suffix);
    Names.PlainServiceName(name, suffix);
  }

  /** The first argument with the prefix gives the port behind its first colon, or else the default holds. */
  ghost predicate PortFits(args: seq<string>, prefix: string, default: int, port: int) {
    && (!Starts(args, prefix) ==> port == default)
    && forall i :: FirstWith(args, prefix, i) ==> port == PortIn(args[i], default)
  }

  /** An argument for the option starts like this. */
  function FlagStart(name: string): string { "--" + name + "=" }

  ghost predicate FirstWith(args: seq<string>, prefix: string, i: int) {
    0 <= i < |args| && prefix <= args[i] && forall j :: 0 <= j < i ==> !(prefix <= args[j])
  }

  /** The admin port is read from the old option only when there is no new one. */
  ghost predicate AdminFits(args: seq<string>, port: int) {
    var name := if Starts(args, FlagStart("admin.http.host-port")) then "admin.http.host-port" else "admin-http-port";
    PortFits(args, FlagStart(name), 14271, port)
  }

  /** The port of this name has the number that the option gives, or else the default. */
  ghost predicate PortIs(args: seq<string>, p: Port, name: string, option: string, default: int) {
    p.name == name && PortFits(args, FlagStart(option), default, p.number)
  }

  ghost predicate PortsFit(args: seq<string>, ports: seq<Port>) {
    && |ports| == 5
    && PortIs(args, ports[0], "zk-compact-trft", "processor.zipkin-compact" + ".server-host-port", 5775)
    && PortIs(args, ports[1], "config-rest", "http-server.host-port", 5778)
    && PortIs(args, ports[2], "jg-compact-trft", "processor.jaeger-compact" + ".server-host-port", 6831)
    && PortIs(args, ports[3], "jg-binary-trft", "processor.jaeger-binary" + ".server-host-port", 6832)
    && ports[4].name == "admin-http" && AdminFits(args, ports[4].number)
  }

  /** The tags say where the agent runs; others that an agent had before are kept. */
  ghost predicate TagsFit(d: Deployment, tags: Tags.TagMap) {
    && TagIs(tags, "cluster", "undefined") && TagIs(tags, "deployment.name", d.name)
    && TagIs(tags, "pod.namespace", d.namespace) && TagIs(tags, "pod.name", "${POD_NAME:}")
    && TagIs(tags, "host.ip", "${HOST_IP:}")
    && (forall c :: OnlyOther(d.containers, c) && c.name != "" ==> TagIs(tags, "container.name", c.name))
    && forall k :: k !in {"cluster", "deployment.name", "pod.namespace", "pod.name", "host.ip"}
                   && (k == "container.name" ==> !NamesContainer(d.containers)) ==>
         (k in tags <==> HadTag(d, k)) && (k in tags ==> HadTagAs(d, k, tags[k]))
  }

  ghost predicate TagIs(tags: Tags.TagMap, k: string, v: string) { k in tags && tags[k] == v }

  /** The one container besides the agent. */
  ghost predicate OnlyOther(cs: seq<Container>, c: Container) {
    exists i :: 0 <= i < |cs| && cs[i] == c && |cs| == (if HasAgent(cs) then 2 else 1) && !FirstAgent(cs, i)
  }

  ghost predicate NamesContainer(cs: seq<Container>) { exists c :: OnlyOther(cs, c) && c.name != "" }

  ghost predicate FirstAgent(cs: seq<Container>, i: int) {
    0 <= i < |cs| && cs[i].name == "jaeger-agent" && forall j :: 0 <= j < i ==> cs[j].name != "jaeger-agent"
  }

  ghost predicate HasAgent(cs: seq<Container>) { exists i :: FirstAgent(cs, i) }

  ghost predicate HadTag(d: Deployment, k: string) { exists v :: HadTagAs(d, k, v) }

  ghost predicate HadTagAs(d: Deployment, k: string, v: string) {
    exists i :: FirstAgent(d.containers, i) && Tags.Parsed(d.containers[i].args).Some?
                && TagIs(Tags.Parsed(d.containers[i].args).value, k, v)
  }

  /** The printed arguments are sorted; the tags are among them unless the options set their own. */
  ghost predicate PrintedFits(d: Deployment, args: seq<string>, r: seq<string>) {
    && Sorted(r)
    && if Starts(args, "--agent.tags=") then multiset(r) == multiset(args)
       else exists tags :: TagsFit(d, tags) && multiset(r) == multiset(args + ["--agent.tags=" + Tags.Printed(tags)])
  }

  /** Another container has the port already. */
  ghost predicate Taken(cs: seq<Container>, port: int) {
    exists c :: c in cs && c.name != "jaeger-agent" && exists p :: p in c.ports && p.number == port
  }

  /** Volumes and mounts are the agent's own; OpenShift adds the two bundles that the instance does not mount itself. */
  ghost predicate VolumesFit(j: Instance, openShift: bool, volumes: seq<Volume>, mounts: seq<VolumeMount>) {
    exists s :: BundleFits(j, openShift, j.agentSpec, j.name + "-trusted-ca", "/etc/pki/ca-trust/extracted/pem", s)
                && exists t :: BundleFits(j, openShift, s, j.name + "-service-ca",
                    "/etc/pki/ca-trust/source/service-ca", t)
                               && volumes == t.volumes && mounts == t.volumeMounts
  }

  ghost predicate BundleFits(j: Instance, openShift: bool, s: Spec, name: string, path: string, r: Spec) {
    if openShift && forall m :: m in j.commonSpec.volumeMounts ==> !(path <= m.path) then
      && MergeLaws.FirstOfEach(s.volumes + [Volume(name, "configmap " + name)], (v: Volume) => v.name, r.volumes)
      && MergeLaws.FirstOfEach(s.volumeMounts + [VolumeMount(name, path)], (m: VolumeMount) => m.name, r.volumeMounts)
    else r == s
  }

  /** The agent's container. */
  ghost predicate AgentFits(j: Instance, env: Platform, d: Deployment, c: Container) {
    && c.name == "jaeger-agent" && c.image == j.image && c.envFrom == [] && c.securityContext == j.securityContext
    && c.env == [EnvVar("POD_NAME", "metadata.name"), EnvVar("HOST_IP", "status.hostIP")] + env.proxyVars
    && (exists args :: ArgumentsFit(j, env.openShift, args) && PortsFit(args, c.ports) && PrintedFits(d, args, c.args)
                       && c.probe == if Taken(d.containers, c.ports[4].number) then None else Some(c.ports[4].number))
    && (exists merged :: MergeLaws.MergeFits([j.agentSpec, j.commonSpec], merged) && c.resources == merged.resources)
    && exists volumes :: VolumesFit(j, env.openShift, volumes, c.mounts)
  }

  // --- The deployment ----------------------------------------------------------------------

  /** The annotations for Prometheus, where there are none. */
  ghost predicate AnnotationsFit(m: map<string, string>, r: map<string, string>) {
    && (forall k :: k in m ==> k in r && r[k] == m[k])
    && (forall k :: k in r ==> k in m || k in {"prometheus.io/scrape", "prometheus.io/port"})
    && "prometheus.io/scrape" in r && ("prometheus.io/scrape" !in m ==> r["prometheus.io/scrape"] == "true")
    && "prometheus.io/port" in r && ("prometheus.io/port" !in m ==> r["prometheus.io/port"] == "14271")
  }

  /** The agent is where the first one was, or at the end; the other containers are decorated. */
  ghost predicate ContainersFit(j: Instance, env: Platform, data: ConfigData, d: Deployment, cs: seq<Container>) {
    && |cs| == (if HasAgent(d.containers) then |d.containers| else |d.containers| + 1)
    && forall i :: 0 <= i < |cs| ==>
         if FirstAgent(d.containers, i) || i == |d.containers| then AgentFits(j, env, d, cs[i])
         else DecoratedFits(d, data, d.containers[i], cs[i])
  }

  /** What the injection of `j` makes of the deployment `d`. */
  ghost predicate InjectionFits(j: Instance, env: Platform, data: ConfigData, d: Deployment, e: Deployment) {
    && e.namespace == d.namespace && e.name == d.name && e.templateLabels == d.templateLabels
    && e.labels == d.labels["sidecar.jaegertracing.io/injected" := Names.LabelForm(j.name)]
    && d.annotations.Some? && e.annotations.Some? && AnnotationsFit(d.annotations.value, e.annotations.value)
    && ContainersFit(j, env, data, d, e.containers)
    && (exists volumes, mounts :: VolumesFit(j, env.openShift, volumes, mounts)
          && MergeLaws.FirstOfEach(d.volumes + volumes, (v: Volume) => v.name, e.volumes))
    && MergeLaws.FirstOfEach(d.pullSecrets + j.agentSpec.imagePullSecrets, (s: LocalObjectReference) => s.name,
        e.pullSecrets)
  }

  // --- Proofs: the application's containers ------------------------------------------------

  lemma NameSays(labels: map<string, string>, namespace: string)
    ensures ServiceNamed(labels, namespace, AppName(labels, namespace))
  {
  }

  lemma VariablesDiffer()
    ensures SERVICE_NAME != PROPAGATION
  {
    assert SERVICE_NAME[7] == 'S' && PROPAGATION[7] == 'P';
  }

  lemma HasBehind(name: string, vars: seq<EnvVar>, v: EnvVar)
    ensures HasEnv(name, vars + [v]) <==> HasEnv(name, vars) || v.name == name
  {
    if HasEnv(name, vars) {
      var x :| x in vars && x.name == name;
      assert x in vars + [v];
    }
    assert v in vars + [v];
  }

  lemma VariablesSay(vars: seq<EnvVar>, app: string, data: ConfigData)
    ensures VariablesFit(vars, data, Some(app), DecoratedEnv(vars, app, data))
  {
    VariablesDiffer();
    HasBehind(PROPAGATION, vars, EnvVar(SERVICE_NAME, app));
    assert Provided(SERVICE_NAME, vars, data) <==> HasEnv(SERVICE_NAME, vars) || HasKey(SERVICE_NAME, data);
    assert Provided(PROPAGATION, vars, data) <==> HasEnv(PROPAGATION, vars) || HasKey(PROPAGATION, data);
    assert vars + [] == vars && vars + [] + [] == vars;
  }

  lemma DecoratedSays(d: Deployment, data: ConfigData, i: nat)
    requires i < |d.containers|
    ensures DecoratedFits(d, data, d.containers[i], DecoratedContainers(d, data)[i])
  {
    var app := AppName(d.templateLabels, d.namespace);
    NameSays(d.templateLabels, d.namespace);
    if app.Some? { VariablesSay(d.containers[i].env, app.value, data); }
    assert VariablesFit(d.containers[i].env, data, app, DecoratedContainers(d, data)[i].env);
  }

  // --- Proofs: arguments and ports ---------------------------------------------------------

  lemma StartsIff(args: seq<string>, prefix: string)
    requires prefix != ""
    ensures FindItem(prefix, args) == "" <==> !Starts(args, prefix)
  {
    if Starts(args, prefix) { FindItemFound(prefix, args); } else { FindItemAbsent(prefix, args); }
  }

  lemma ArgumentsSay(j: Instance, env: Platform)
    ensures ArgumentsFit(j, env.openShift, BaseArgs(j, env))
  {
    StartsIff(j.options, REPORTER);
    StartsIff(WithReporter(j), TLS_ENABLED);
    assert j.options + [] == j.options && WithReporter(j) + [] == WithReporter(j);
  }

  lemma {:induction false} FoundFirst(args: seq<string>, prefix: string)
    requires prefix != ""
    ensures forall i :: FirstWith(args, prefix, i) ==> FindItem(prefix, args) == args[i]
  {
    if args != [] && !(prefix <= args[0]) {
      FoundFirst(args[1..], prefix);
      assert forall j :: 0 < j < |args| ==> args[j] == args[1..][j - 1];
      forall i | FirstWith(args, prefix, i) ensures FindItem(prefix, args) == args[i] {
        assert FirstWith(args[1..], prefix, i - 1);
      }
    }
  }

  lemma PortSays(args: seq<string>, prefix: string, default: int)
    requires prefix != ""
    ensures PortFits(args, prefix, default, GetPort(prefix, args, default))
  {
    StartsIff(args, prefix);
    FoundFirst(args, prefix);
  }

  lemma AdminSays(args: seq<string>)
    ensures AdminFits(args, AdminFrom(AgentPortOptions(), args))
  {
    StartsIff(args, FlagStart(ADMIN_HOST_PORT));
    PortSays(args, FlagStart(ADMIN_HOST_PORT), 14271);
    PortSays(args, FlagStart(ADMIN_HTTP_PORT), 14271);
  }

  lemma OptionPortSays(args: seq<string>, name: string, option: string, default: int)
    ensures PortIs(args, Port(name, GetPort("--" + option + "=", args, default)), name, option, default)
  {
    PortSays(args, FlagStart(option), default);
  }

  lemma PortsSay(args: seq<string>)
    ensures PortsFit(args, PortsFrom(AgentPortOptions(), args))
  {
    var f := AgentPortOptions();
    OptionPortSays(args, "zk-compact-trft", f.zipkin, 5775);
    OptionPortSays(args, "config-rest", f.rest, 5778);
    OptionPortSays(args, "jg-compact-trft", f.compact, 6831);
    OptionPortSays(args, "jg-binary-trft", f.binary, 6832);
    AdminSays(args);
  }

  // --- Proofs: tags ------------------------------------------------------------------------

  lemma FirstAgentIs(cs: seq<Container>)
    ensures forall i :: FirstAgent(cs, i) <==> i == AgentIndex(cs) && i >= 0
    ensures HasAgent(cs) <==> AgentIndex(cs) >= 0
  {
    if AgentIndex(cs) >= 0 { assert FirstAgent(cs, AgentIndex(cs)); }
  }

  lemma ContainerNameSays(cs: seq<Container>)
    ensures ContainerName(cs, AgentIndex(cs)) != "" <==> NamesContainer(cs)
    ensures forall c :: OnlyOther(cs, c) && c.name != "" ==> ContainerName(cs, AgentIndex(cs)) == c.name
  {
    var idx := AgentIndex(cs);
    FirstAgentIs(cs);
    if ContainerName(cs, idx) != "" {
      var i := if idx == -1 then 0 else 1 - idx;
      assert OnlyOther(cs, cs[i]);
    }
  }

  lemma DefaultTagsSay(d: Deployment)
    ensures var t := DefaultTagsOf(d);
            && TagIs(t, "cluster", "undefined") && TagIs(t, "deployment.name", d.name)
            && TagIs(t, "pod.namespace", d.namespace) && TagIs(t, "pod.name", "${POD_NAME:}")
            && TagIs(t, "host.ip", "${HOST_IP:}")
            && (forall c :: OnlyOther(d.containers, c) && c.name != "" ==> TagIs(t, "container.name", c.name))
            && forall k :: k in t <==> k in {"cluster", "deployment.name", "pod.namespace", "pod.name", "host.ip"}
                                       || (k == "container.name" && NamesContainer(d.containers))
  {
    ContainerNameSays(d.containers);
    TagNamesDiffer();
  }

  lemma TagNamesDiffer()
    ensures "container.name" !in {"cluster", "deployment.name", "pod.namespace", "pod.name", "host.ip"}
  {
    assert |"container.name"| == 14 && |"deployment.name"| == 15 && |"pod.namespace"| == 13;
  }

  lemma TagsSay(d: Deployment)
    requires AgentTags(d).Some?
    ensures TagsFit(d, AgentTags(d).value)
  {
    DefaultTagsSay(d);
    FirstAgentIs(d.containers);
    var tags, idx := AgentTags(d).value, AgentIndex(d.containers);
    forall k | k !in {"cluster", "deployment.name", "pod.namespace", "pod.name", "host.ip"}
               && (k == "container.name" ==> !NamesContainer(d.containers))
      ensures (k in tags <==> HadTag(d, k)) && (k in tags ==> HadTagAs(d, k, tags[k]))
    {
      if idx >= 0 {
        var was := Tags.Parsed(d.containers[idx].args).value;
        assert k in tags <==> k in was;
        if k in was { assert HadTagAs(d, k, was[k]); }
      }
    }
  }

  lemma PrintedSays(a: Agent, d: Deployment)
    requires Completes(a, d) && !AssignedElsewhere(a, d)
    ensures PrintedFits(d, a.base, AgentArgs(a.base, TagsFor(a, d)))
  {
    StartsIff(a.base, Tags.TAGS_FLAG);
    var more := a.base + [Tags.TAGS_FLAG + Tags.Printed(TagsFor(a, d))];
    SortCorrect(a.base);
    SortCorrect(more);
    if TagsNeeded(a) { TagsSay(d); }
  }

  // --- Proofs: the agent and the deployment ------------------------------------------------

  lemma BundleSays(j: Instance, openShift: bool, s: Spec, name: string, path: string)
    ensures BundleFits(j, openShift, s, name, path,
              if !openShift || MountsBelow(j.commonSpec, path) then s else WithVolume(s, name, path))
  {
    var volumes, mounts := s.volumes + [Volume(name, "configmap " + name)], s.volumeMounts + [VolumeMount(name, path)];
    MergeLaws.DedupKeepsFirst(volumes, VolumeName);
    MergeLaws.DedupKeepsFirst(mounts, MountName);
    MergeLaws.SameNames(volumes, VolumeName, (v: Volume) => v.name, Dedup(volumes, {}, VolumeName));
    MergeLaws.SameNames(mounts, MountName, (m: VolumeMount) => m.name, Dedup(mounts, {}, MountName));
  }

  lemma VolumesSay(j: Instance, env: Platform)
    ensures var s := AgentVolumes(j, env); VolumesFit(j, env.openShift, s.volumes, s.volumeMounts)
  {
    BundleSays(j, env.openShift, j.agentSpec, TrustedCAName(j.name), CA_BUNDLE_PATH);
    var s := if !env.openShift || MountsBelow(j.commonSpec, CA_BUNDLE_PATH) then j.agentSpec
             else WithVolume(j.agentSpec, TrustedCAName(j.name), CA_BUNDLE_PATH);
    BundleSays(j, env.openShift, s, ServiceCAName(j.name), SERVICE_CA_PATH);
  }

  lemma TakenIff(d: Deployment, data: ConfigData, port: int)
    ensures PortAvailable(port, DecoratedContainers(d, data)) <==> !Taken(d.containers, port)
  {
    var cs := DecoratedContainers(d, data);
    if Taken(d.containers, port) {
      var c :| c in d.containers && c.name != "jaeger-agent" && exists p :: p in c.ports && p.number == port;
      var i :| 0 <= i < |d.containers| && d.containers[i] == c;
      assert cs[i] in cs && cs[i].ports == c.ports && cs[i].name == c.name;
    }
    if !PortAvailable(port, cs) {
      var c :| c in cs && c.name != AGENT && exists p :: p in c.ports && p.number == port;
      var i :| 0 <= i < |cs| && cs[i] == c;
      assert d.containers[i] in d.containers && d.containers[i].ports == c.ports && d.containers[i].name == c.name;
    }
  }

  lemma AgentSays(j: Instance, env: Platform, data: ConfigData, d: Deployment)
    requires var a := AgentOf(j, env); Completes(a, d) && !AssignedElsewhere(a, d)
    ensures AgentFits(j, env, d, AgentFor(AgentOf(j, env), data, d))
  {
    var a := AgentOf(j, env);
    var c := AgentFor(a, data, d);
    ArgumentsSay(j, env);
    PortsSay(a.base);
    PrintedSays(a, d);
    TakenIff(d, data, a.adminPort);
    MergeLaws.MergedFits([j.agentSpec, j.commonSpec]);
    VolumesSay(j, env);
    assert VolumesFit(j, env.openShift, AgentVolumes(j, env).volumes, c.mounts);
    assert ArgumentsFit(j, env.openShift, a.base) && PortsFit(a.base, c.ports) && PrintedFits(d, a.base, c.args);
  }

  lemma ContainersSay(j: Instance, env: Platform, data: ConfigData, d: Deployment)
    requires var a := AgentOf(j, env); Completes(a, d) && !AssignedElsewhere(a, d)
    ensures ContainersFit(j, env, data, d, InjectedBy(AgentOf(j, env), data, d).containers)
  {
    var a := AgentOf(j, env);
    var cs := InjectedBy(a, data, d).containers;
    AgentSays(j, env, data, d);
    PlacedSays(d, data, AgentFor(a, data, d));
    forall i | 0 <= i < |cs|
      ensures if FirstAgent(d.containers, i) || i == |d.containers| then AgentFits(j, env, d, cs[i])
              else DecoratedFits(d, data, d.containers[i], cs[i])
    {
      if !FirstAgent(d.containers, i) && i != |d.containers| { DecoratedSays(d, data, i); }
    }
  }

  lemma PlacedSays(d: Deployment, data: ConfigData, agent: Container)
    ensures var cs := Place(DecoratedContainers(d, data), agent);
            && |cs| == (if HasAgent(d.containers) then |d.containers| else |d.containers| + 1)
            && forall i :: 0 <= i < |cs| ==>
                 cs[i] == if FirstAgent(d.containers, i) || i == |d.containers| then agent
                          else DecoratedContainers(d, data)[i]
  {
    FirstAgentIs(d.containers);
    SidecarLaws.SameNamesSameIndex(d.containers, DecoratedContainers(d, data));
  }

  lemma AnnotationsSay(m: map<string, string>)
    ensures AnnotationsFit(m, Annotated(m))
  {
  }

  /** What an injection leaves, as long as it completes and the deployment is not another instance's. */
  lemma InjectionSays(j: Instance, env: Platform, data: ConfigData, d: Deployment)
    requires var a := AgentOf(j, env); Completes(a, d) && !AssignedElsewhere(a, d)
    ensures InjectionFits(j, env, data, d, InjectedBy(AgentOf(j, env), data, d))
  {
    var a := AgentOf(j, env);
    ContainersSay(j, env, data, d);
    AnnotationsSay(d.annotations.value);
    VolumesSay(j, env);
    var volumes, secrets := d.volumes + a.volumes, d.pullSecrets + a.pullSecrets;
    MergeLaws.DedupKeepsFirst(volumes, VolumeName);
    MergeLaws.DedupKeepsFirst(secrets, SecretName);
    MergeLaws.SameNames(volumes, VolumeName, (v: Volume) => v.name, Dedup(volumes, {}, VolumeName));
    MergeLaws.SameNames(secrets, SecretName, (s: LocalObjectReference) => s.name, Dedup(secrets, {}, SecretName));
    assert VolumesFit(j, env.openShift, a.volumes, AgentVolumes(j, env).volumeMounts);
  }

  /** When it completes: annotations are there, and the tags of an agent can be read where they are needed. */
  lemma CompletesSays(j: Instance, env: Platform, d: Deployment)
    requires !("sidecar.jaegertracing.io/injected" in d.labels
               && d.labels["sidecar.jaegertracing.io/injected"] != j.name)
    ensures Completes(AgentOf(j, env), d) <==>
              && d.annotations.Some?
              && forall i, args ::
                   FirstAgent(d.containers, i) && ArgumentsFit(j, env.openShift, args)
                       && !Starts(args, "--agent.tags=") ==>
                   Tags.Parsed(d.containers[i].args).Some?
  {
    var a := AgentOf(j, env);
    StartsIff(a.base, Tags.TAGS_FLAG);
    ArgumentsSay(j, env);
    FirstAgentIs(d.containers);
  }
}
