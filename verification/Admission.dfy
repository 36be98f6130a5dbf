/**
 The life of an application deployment under the operator: the admission webhook
 (controllers/appsv1/deployment_webhook.go), auto-clean (pkg/autoclean/main.go), the revision
 bumps of the controllers, and the user's own edits, in any order and any number.
 */
module Admission {
  import opened Text
  import opened CommonSpec
  import opened Sidecar
  import LiveDeployment
  import SidecarLaws
  import InjectionLaws
  import Names
  import Tags

  const ANNOTATION := "sidecar.jaegertracing.io/inject"
  const REVISION := "sidecar.jaegertracing.io/revision"

  /** What one admission request finds around it; `jaegers` is None when the list call fails. */
  datatype World = World(
    watched: bool, nsAnnotations: map<string, string>, jaegers: Option<seq<Instance>>,
    configMaps: map<string, map<string, string>>, platform: Platform)

  function Get(m: map<string, string>, k: string): string { if k in m then m[k] else "" }

  function Annotation(d: Deployment): map<string, string> {
    if d.annotations.Some? then d.annotations.value else map[]
  }

  // --- Needed and Select -------------------------------------------------------------------

  predicate Asks(m: map<string, string>) { ANNOTATION in m && !EqualFold(m[ANNOTATION], "false") }

  predicate Desired(d: Deployment, ns: map<string, string>) { Asks(Annotation(d)) || Asks(ns) }

  predicate IsJaeger(labels: map<string, string>) {
    Get(labels, "app") == "jaeger" && Get(labels, "app.kubernetes.io/component") != "query"
  }

  predicate Needed(d: Deployment, ns: map<string, string>) {
    && Desired(d, ns)
    && !IsJaeger(d.labels)
    && (AgentIndex(d.containers) >= 0 ==> LABEL in d.labels)
  }

  function FirstNamed(name: string, items: seq<Instance>): Option<Instance> {
    if items == [] then None
    else if items[0].name == name then Some(items[0])
    else FirstNamed(name, items[1..])
  }

  function FirstNamedIn(ns: string, name: string, items: seq<Instance>): Option<Instance> {
    if items == [] then None
    else if items[0].name == name && items[0].namespace == ns then Some(items[0])
    else FirstNamedIn(ns, name, items[1..])
  }

  /** Prefers the instance in the workload's namespace, else the first with the name. */
  function GetJaeger(ns: string, name: string, items: seq<Instance>): Option<Instance> {
    var same := FirstNamedIn(ns, name, items);
    if same.Some? then same else FirstNamed(name, items)
  }

  function InNamespace(ns: string, items: seq<Instance>): seq<Instance> {
    if items == [] then []
    else if items[0].namespace == ns then [items[0]] + InNamespace(ns, items[1..])
    else InNamespace(ns, items[1..])
  }

  function Select(d: Deployment, ns: map<string, string>, items: seq<Instance>): Option<Instance> {
    var depName, nsName := Get(Annotation(d), ANNOTATION), Get(ns, ANNOTATION);
    if depName != "" && !EqualFold(depName, "true") then GetJaeger(d.namespace, depName, items)
    else
      var byNs := GetJaeger(d.namespace, nsName, items);
      if byNs.Some? then byNs
      else if EqualFold(depName, "true") || EqualFold(nsName, "true") then
        if |items| == 1 then Some(items[0])
        else
          var local := InNamespace(d.namespace, items);
          if |local| == 1 then Some(local[0]) else None
      else None
  }

  lemma {:induction false} SelectedIsListed(d: Deployment, ns: map<string, string>, items: seq<Instance>)
    ensures Select(d, ns, items).Some? ==> Select(d, ns, items).value in items
  {
    forall name { FirstNamedListed(name, items); }
    forall name { FirstNamedInListed(d.namespace, name, items); }
    InNamespaceListed(d.namespace, items);
    if |InNamespace(d.namespace, items)| == 1 {
      assert InNamespace(d.namespace, items)[0] in InNamespace(d.namespace, items);
    }
  }

  lemma FirstNamedListed(name: string, items: seq<Instance>)
    ensures FirstNamed(name, items).Some? ==> FirstNamed(name, items).value in items
  {
  }

  lemma FirstNamedInListed(ns: string, name: string, items: seq<Instance>)
    ensures FirstNamedIn(ns, name, items).Some? ==> FirstNamedIn(ns, name, items).value in items
  {
  }

  lemma InNamespaceListed(ns: string, items: seq<Instance>)
    ensures forall j :: j in InNamespace(ns, items) ==> j in items
  {
  }

  /** GetConfigMapsMatchedEnvFromInDeployment */
  function Matched(refs: seq<string>, configMaps: map<string, map<string, string>>): ConfigData {
    if refs == [] then []
    else (if refs[0] in configMaps then [configMaps[refs[0]]] else []) + Matched(refs[1..], configMaps)
  }

  function MatchedAll(cs: seq<Container>, configMaps: map<string, map<string, string>>): ConfigData {
    if cs == [] then [] else Matched(cs[0].envFrom, configMaps) + MatchedAll(cs[1..], configMaps)
  }

  // --- Handle ------------------------------------------------------------------------------

  /** The instance this request injects, if it gets that far. */
  function Chosen(w: World, d: Deployment): Option<Instance> {
    if !w.watched || IsJaeger(d.labels) || w.jaegers.None? || !Needed(d, w.nsAnnotations) then None
    else
      var j := Select(d, w.nsAnnotations, w.jaegers.value);
      if j.Some? && !j.value.deleting then j else None
  }

  predicate CleansUp(w: World, d: Deployment) {
    && w.watched && !IsJaeger(d.labels) && w.jaegers.Some? && !Needed(d, w.nsAnnotations)
    && AgentIndex(d.containers) >= 0 && LABEL in d.labels
  }

  /**
   The deployment after the request. A panic on the way makes the call fail, and the webhook's
   failure policy then admits the request as it came; a denied request leaves the stored
   deployment, which this request did not change, as it is.
   */
  ghost function Handled(w: World, d: Deployment): Deployment {
    var j := Chosen(w, d);
    if j.Some? then
      var a := AgentOf(j.value, w.platform);
      if Completes(a, d) then InjectedBy(a, MatchedAll(d.containers, w.configMaps), d) else d
    else if CleansUp(w, d) then Cleaned(d.labels[LABEL], w.platform.openShift, d)
    else d
  }

  datatype Response = Denied | Admitted(admitted: Deployment)

  // --- The answer, read off the annotations, the labels and the instances ------------------

  /** The operator's own deployments, but for the query service, are never touched. */
  ghost predicate OwnWorkload(d: Deployment) {
    && "app" in d.labels && d.labels["app"] == "jaeger"
    && !("app.kubernetes.io/component" in d.labels && d.labels["app.kubernetes.io/component"] == "query")
  }

  function Annotations(d: Deployment): map<string, string> {
    if d.annotations.Some? then d.annotations.value else map[]
  }

  /** The annotation is there and says something else than "false". */
  ghost predicate AsksFor(m: map<string, string>) {
    "sidecar.jaegertracing.io/inject" in m && !EqualFold(m["sidecar.jaegertracing.io/inject"], "false")
  }

  /** What the annotation says, "" when it is not there. */
  function Said(m: map<string, string>): string {
    if "sidecar.jaegertracing.io/inject" in m then m["sidecar.jaegertracing.io/inject"] else ""
  }

  ghost predicate FirstBy(items: seq<Instance>, f: Instance -> bool, i: int) {
    0 <= i < |items| && f(items[i]) && forall j :: 0 <= j < i ==> !f(items[j])
  }

  function NamedIn(ns: string, name: string): Instance -> bool { (j: Instance) => j.name == name && j.namespace == ns }
  function Named(name: string): Instance -> bool { (j: Instance) => j.name == name }
  function Local(ns: string): Instance -> bool { (j: Instance) => j.namespace == ns }

  /** The first instance with the name in the namespace, else the first with the name anywhere. */
  ghost predicate NamedFits(items: seq<Instance>, ns: string, name: string, r: Option<Instance>) {
    && (forall i :: FirstBy(items, NamedIn(ns, name), i) ==> r == Some(items[i]))
    && ((forall i :: !FirstBy(items, NamedIn(ns, name), i)) ==>
          && (forall i :: FirstBy(items, Named(name), i) ==> r == Some(items[i]))
          && ((forall i :: !FirstBy(items, Named(name), i)) ==> r.None?))
  }

  /** The instance at `i` is the only one in the namespace. */
  ghost predicate OnlyIn(items: seq<Instance>, ns: string, i: int) {
    0 <= i < |items| && items[i].namespace == ns && forall j :: 0 <= j < |items| && j != i ==> items[j].namespace != ns
  }

  /**
   A name on the deployment decides; else a name on the namespace; else "true" on either of them
   means the only instance there is, or the only one in the namespace.
   */
  ghost predicate SelectFits(d: Deployment, ns: map<string, string>, items: seq<Instance>, r: Option<Instance>) {
    var depName, nsName := Said(Annotations(d)), Said(ns);
    if depName != "" && !EqualFold(depName, "true") then NamedFits(items, d.namespace, depName, r)
    else
      exists byNs :: NamedFits(items, d.namespace, nsName, byNs) &&
        if byNs.Some? then r == byNs
        else if !EqualFold(depName, "true") && !EqualFold(nsName, "true") then r.None?
        else if |items| == 1 then r == Some(items[0])
        else LocalFits(items, d.namespace, r)
  }

  ghost predicate LocalFits(items: seq<Instance>, ns: string, r: Option<Instance>) {
    && (forall i :: OnlyIn(items, ns, i) ==> r == Some(items[i]))
    && ((forall i :: !OnlyIn(items, ns, i)) ==> r.None?)
  }

  /** The config maps that the containers read their environment from. */
  ghost predicate DataFits(cs: seq<Container>, configMaps: map<string, map<string, string>>, data: ConfigData) {
    forall m :: m in data <==>
      exists c, ref :: c in cs && ref in c.envFrom && ref in configMaps && m == configMaps[ref]
  }

  /** The injection of the instance goes through. */
  ghost predicate Injectable(j: Instance, platform: Platform, d: Deployment) {
    && !j.deleting && d.annotations.Some?
    && ("sidecar.jaegertracing.io/injected" in d.labels ==> d.labels["sidecar.jaegertracing.io/injected"] == j.name)
    && forall i, args ::
         InjectionLaws.FirstAgent(d.containers, i) && InjectionLaws.ArgumentsFit(j, platform.openShift, args) ==>
         InjectionLaws.Starts(args, "--agent.tags=") || Tags.Parsed(d.containers[i].args).Some?
  }

  ghost predicate InjectedFits(w: World, d: Deployment, j: Option<Instance>, e: Deployment) {
    if j.None? || !Injectable(j.value, w.platform, d) then e == d
    else
      exists data :: DataFits(d.containers, w.configMaps, data)
          && InjectionLaws.InjectionFits(j.value, w.platform, data, d, e)
  }

  /** The first agent, the label and, on OpenShift, the two bundles of the instance are gone. */
  ghost predicate CleanedFits(openShift: bool, d: Deployment, e: Deployment)
    requires "sidecar.jaegertracing.io/injected" in d.labels
  {
    var instance := d.labels["sidecar.jaegertracing.io/injected"];
    && e == d.(labels := e.labels, containers := e.containers, volumes := e.volumes)
    && e.labels == d.labels - {"sidecar.jaegertracing.io/injected"}
    && (forall i :: InjectionLaws.FirstAgent(d.containers, i) ==>
        e.containers == d.containers[..i] + d.containers[i + 1..])
    && forall v :: multiset(e.volumes)[v] ==
         if openShift && (v.name == instance + "-trusted-ca" || v.name == instance + "-service-ca") then 0
         else multiset(d.volumes)[v]
  }

  /** The answer to a request for the deployment `d`. */
  ghost predicate HandleFits(w: World, d: Deployment, r: Response) {
    var labelled := "sidecar.jaegertracing.io/injected" in d.labels;
    var agent := InjectionLaws.HasAgent(d.containers);
    if !w.watched || OwnWorkload(d) then r == Admitted(d)
    else if w.jaegers.None? then r == Denied
    else
      && r.Admitted?
      && if AsksFor(Annotations(d)) || AsksFor(w.nsAnnotations) then
           if agent && !labelled then r.admitted == d
           else exists j :: SelectFits(d, w.nsAnnotations, w.jaegers.value, j) && InjectedFits(w, d, j, r.admitted)
         else if agent && labelled then CleanedFits(w.platform.openShift, d, r.admitted)
         else r.admitted == d
  }

  lemma {:induction false} FirstNamedSays(name: string, items: seq<Instance>)
    ensures forall i :: FirstBy(items, Named(name), i) ==> FirstNamed(name, items) == Some(items[i])
    ensures FirstNamed(name, items).Some? ==> exists i :: FirstBy(items, Named(name), i)
  {
    var f := Named(name);
    if items != [] && items[0].name != name {
      FirstNamedSays(name, items[1..]);
      FirstBehind(items, f);
    } else if items != [] {
      assert FirstBy(items, f, 0);
    }
  }

  lemma {:induction false} FirstNamedInSays(ns: string, name: string, items: seq<Instance>)
    ensures forall i :: FirstBy(items, NamedIn(ns, name), i) ==>
              FirstNamedIn(ns, name, items) == Some(items[i])
    ensures FirstNamedIn(ns, name, items).Some? ==>
              exists i :: FirstBy(items, NamedIn(ns, name), i)
  {
    var f := NamedIn(ns, name);
    if items != [] && !f(items[0]) {
      FirstNamedInSays(ns, name, items[1..]);
      FirstBehind(items, f);
    } else if items != [] {
      assert FirstBy(items, f, 0);
    }
  }

  lemma FirstBehind(items: seq<Instance>, f: Instance -> bool)
    requires items != [] && !f(items[0])
    ensures forall i :: FirstBy(items, f, i) ==> FirstBy(items[1..], f, i - 1) && items[1..][i - 1] == items[i]
    ensures (exists i :: FirstBy(items[1..], f, i)) ==> exists i :: FirstBy(items, f, i)
  {
    assert forall j :: 0 < j < |items| ==> items[j] == items[1..][j - 1];
    if i :| FirstBy(items[1..], f, i) { assert FirstBy(items, f, i + 1); }
  }

  lemma NamedSays(items: seq<Instance>, ns: string, name: string)
    ensures NamedFits(items, ns, name, GetJaeger(ns, name, items))
  {
    FirstNamedSays(name, items);
    FirstNamedInSays(ns, name, items);
  }

  lemma {:induction false} LocalSays(ns: string, items: seq<Instance>)
    ensures forall i :: 0 <= i < |items| && items[i].namespace == ns ==> |InNamespace(ns, items)| > 0
    ensures |InNamespace(ns, items)| == 1 ==> exists i :: OnlyIn(items, ns, i) && InNamespace(ns, items)[0] == items[i]
    ensures forall i :: OnlyIn(items, ns, i) ==> InNamespace(ns, items) == [items[i]]
  {
    if items != [] {
      LocalSays(ns, items[1..]);
      LocalBehind(ns, items);
    }
  }

  lemma LocalBehind(ns: string, items: seq<Instance>)
    requires items != [] && var rest := items[1..];
             && (forall i :: 0 <= i < |rest| && rest[i].namespace == ns ==> |InNamespace(ns, rest)| > 0)
             && (|InNamespace(ns, rest)| == 1 ==>
                   exists i :: OnlyIn(rest, ns, i) && InNamespace(ns, rest)[0] == rest[i])
             && (forall i :: OnlyIn(rest, ns, i) ==> InNamespace(ns, rest) == [rest[i]])
    ensures forall i :: 0 <= i < |items| && items[i].namespace == ns ==> |InNamespace(ns, items)| > 0
    ensures |InNamespace(ns, items)| == 1 ==> exists i :: OnlyIn(items, ns, i) && InNamespace(ns, items)[0] == items[i]
    ensures forall i :: OnlyIn(items, ns, i) ==> InNamespace(ns, items) == [items[i]]
  {
    var rest := items[1..];
    assert forall j :: 0 < j < |items| ==> items[j] == rest[j - 1];
    if items[0].namespace == ns {
      if InNamespace(ns, rest) == [] {
        NoneInNamespace(ns, rest);
        assert OnlyIn(items, ns, 0);
      }
      forall i | OnlyIn(items, ns, i) ensures i == 0 && InNamespace(ns, rest) == [] {
        InNamespaceOnly(ns, rest);
      }
    } else {
      forall i | OnlyIn(items, ns, i) ensures OnlyIn(rest, ns, i - 1) { }
      if i :| OnlyIn(rest, ns, i) { assert OnlyIn(items, ns, i + 1); }
    }
  }

  lemma {:induction false} NoneInNamespace(ns: string, items: seq<Instance>)
    requires InNamespace(ns, items) == []
    ensures forall i :: 0 <= i < |items| ==> items[i].namespace != ns
  {
    if items != [] {
      NoneInNamespace(ns, items[1..]);
      assert forall j :: 0 < j < |items| ==> items[j] == items[1..][j - 1];
    }
  }

  lemma {:induction false} InNamespaceOnly(ns: string, items: seq<Instance>)
    ensures (forall i :: 0 <= i < |items| ==> items[i].namespace != ns) ==> InNamespace(ns, items) == []
  {
    if items != [] {
      InNamespaceOnly(ns, items[1..]);
      assert forall j :: 0 < j < |items| ==> items[j] == items[1..][j - 1];
    }
  }

  lemma SelectSays(d: Deployment, ns: map<string, string>, items: seq<Instance>)
    ensures SelectFits(d, ns, items, Select(d, ns, items))
  {
    var depName, nsName := Get(Annotation(d), ANNOTATION), Get(ns, ANNOTATION);
    assert depName == Said(Annotations(d)) && nsName == Said(ns);
    NamedSays(items, d.namespace, depName);
    NamedSays(items, d.namespace, nsName);
    OnlyLocalSays(items, d.namespace);
    assert NamedFits(items, d.namespace, nsName, GetJaeger(d.namespace, nsName, items));
  }

  lemma OnlyLocalSays(items: seq<Instance>, ns: string)
    ensures var local := InNamespace(ns, items); LocalFits(items, ns, if |local| == 1 then Some(local[0]) else None)
  {
    LocalSays(ns, items);
  }

  lemma {:induction false} MatchedSays(refs: seq<string>, configMaps: map<string, map<string, string>>)
    ensures forall m :: m in Matched(refs, configMaps)
              <==> exists ref :: ref in refs && ref in configMaps && m == configMaps[ref]
  {
    if refs != [] {
      MatchedSays(refs[1..], configMaps);
      assert forall ref :: ref in refs <==> ref == refs[0] || ref in refs[1..];
    }
  }

  lemma {:induction false} DataSays(cs: seq<Container>, configMaps: map<string, map<string, string>>)
    ensures DataFits(cs, configMaps, MatchedAll(cs, configMaps))
  {
    if cs != [] {
      MatchedSays(cs[0].envFrom, configMaps);
      DataSays(cs[1..], configMaps);
      assert forall c :: c in cs <==> c == cs[0] || c in cs[1..];
    }
  }

  lemma InjectedSays(w: World, d: Deployment, j: Instance)
    ensures var a := AgentOf(j, w.platform);
            var e := if j.deleting || !Completes(a, d) then d
                else InjectedBy(a, MatchedAll(d.containers, w.configMaps), d);
            InjectedFits(w, d, Some(j), e)
  {
    var a := AgentOf(j, w.platform);
    if LABEL !in d.labels || d.labels[LABEL] == j.name {
      InjectionLaws.CompletesSays(j, w.platform, d);
      assert Injectable(j, w.platform, d) <==> !j.deleting && Completes(a, d);
      if !j.deleting && Completes(a, d) {
        DataSays(d.containers, w.configMaps);
        InjectionLaws.InjectionSays(j, w.platform, MatchedAll(d.containers, w.configMaps), d);
      }
    }
  }

  lemma {:induction false} WithoutSays(vs: seq<Volume>, names: set<string>)
    ensures forall v :: multiset(Without(vs, names))[v] == if v.name in names then 0 else multiset(vs)[v]
  {
    if vs != [] {
      WithoutSays(vs[1..], names);
      assert vs == [vs[0]] + vs[1..];
    }
  }

  lemma CleanedSays(openShift: bool, d: Deployment)
    requires LABEL in d.labels
    ensures CleanedFits(openShift, d, Cleaned(d.labels[LABEL], openShift, d))
  {
    WithoutSays(d.volumes, ManagedVolumes(d.labels[LABEL], openShift));
    InjectionLaws.FirstAgentIs(d.containers);
  }

  lemma NeededSays(d: Deployment, ns: map<string, string>)
    ensures IsJaeger(d.labels) <==> OwnWorkload(d)
    ensures Needed(d, ns) <==>
              && (AsksFor(Annotations(d)) || AsksFor(ns)) && !OwnWorkload(d)
              && (InjectionLaws.HasAgent(d.containers) ==> LABEL in d.labels)
    ensures InjectionLaws.HasAgent(d.containers) <==> AgentIndex(d.containers) >= 0
  {
    InjectionLaws.FirstAgentIs(d.containers);
    OwnSays(d);
  }

  lemma OwnSays(d: Deployment)
    ensures IsJaeger(d.labels) <==> OwnWorkload(d)
  {
    assert |"jaeger"| == 6 && |"query"| == 5;
  }

  /** The deployment asks for an instance, or an agent of the operator's is to be refreshed. */
  lemma WantedSays(w: World, d: Deployment)
    requires w.watched && w.jaegers.Some? && Needed(d, w.nsAnnotations)
    ensures exists j :: SelectFits(d, w.nsAnnotations, w.jaegers.value, j) && InjectedFits(w, d, j, Handled(w, d))
  {
    SelectSays(d, w.nsAnnotations, w.jaegers.value);
    var j := Select(d, w.nsAnnotations, w.jaegers.value);
    if j.Some? { InjectedSays(w, d, j.value); }
    assert InjectedFits(w, d, j, Handled(w, d));
  }

  /** Handle's answer to every request. */
  lemma HandledSays(w: World, d: Deployment)
    ensures HandleFits(w, d, if Denies(w, d) then Denied else Admitted(Handled(w, d)))
  {
    NeededSays(d, w.nsAnnotations);
    if w.watched && !IsJaeger(d.labels) && w.jaegers.Some? {
      if Needed(d, w.nsAnnotations) {
        WantedSays(w, d);
      } else if CleansUp(w, d) {
        CleanedSays(w.platform.openShift, d);
      }
    }
  }

  /** Without the list of instances the request is answered by an error, which denies it. */
  predicate Denies(w: World, d: Deployment) { w.watched && !IsJaeger(d.labels) && w.jaegers.None? }

  /** `Handle` on a decoded copy of the request's object. */
  method Handle(w: World, request: Deployment) returns (r: Response)
    ensures r.Denied? <==> Denies(w, request)
    ensures r.Admitted? ==> r.admitted == Handled(w, request)
    ensures HandleFits(w, request, r)
  {
    HandledSays(w, request);
    if !w.watched { return Admitted(request); }
    if IsJaeger(request.labels) { return Admitted(request); }
    if w.jaegers.None? { return Denied; }
    var dep := new LiveDeployment.LiveDeployment(request);
    if Needed(request, w.nsAnnotations) {
      var jaeger := Select(request, w.nsAnnotations, w.jaegers.value);
      if jaeger.Some? && !jaeger.value.deleting {
        var ok := dep.Sidecar(AgentOf(jaeger.value, w.platform), MatchedAll(request.containers, w.configMaps));
        if ok { return Admitted(dep.Value()); }
      }
      return Admitted(request);
    }
    if AgentIndex(request.containers) >= 0 && LABEL in request.labels {
      dep.CleanSidecar(request.labels[LABEL], w.platform.openShift);
      return Admitted(dep.Value());
    }
    return Admitted(request);
  }

  // --- Runs --------------------------------------------------------------------------------

  datatype Step =
    | Webhook(w: World)
    | AutoClean(live: set<string>, openShift: bool)
    | BumpRevision(revision: string)
    | UserEdit(next: Deployment)

  /** cleanDeployments, for one listed deployment. */
  function AutoCleaned(live: set<string>, openShift: bool, d: Deployment): Deployment {
    if LABEL in d.labels && d.labels[LABEL] !in live then Cleaned(d.labels[LABEL], openShift, d) else d
  }

  function Agents(cs: seq<Container>): seq<Container> {
    if cs == [] then []
    else if cs[0].name == AGENT then [cs[0]] + Agents(cs[1..])
    else Agents(cs[1..])
  }

  function LabelOf(d: Deployment): Option<string> { if LABEL in d.labels then Some(d.labels[LABEL]) else None }

  /** A user may change anything but the operator's label and the agent containers. */
  ghost predicate OwnEdit(d: Deployment, next: Deployment) {
    LabelOf(next) == LabelOf(d) && Agents(next.containers) == Agents(d.containers)
  }

  ghost predicate Next(d: Deployment, s: Step, d': Deployment) {
    match s
    case Webhook(w) => d' == Handled(w, d)
    case AutoClean(live, openShift) => d' == AutoCleaned(live, openShift, d)
    case BumpRevision(r) =>
      d' == if d.annotations.None? then d else d.(annotations := Some(d.annotations.value[REVISION := r]))
    case UserEdit(next) => d' == next && OwnEdit(d, next)
  }

  ghost predicate Run(states: seq<Deployment>, steps: seq<Step>) {
    |states| == |steps| + 1 && forall i :: 0 <= i < |steps| ==> Next(states[i], steps[i], states[i + 1])
  }

  // --- How one step moves the label and the agents -----------------------------------------

  lemma {:induction false} AgentsConcat(a: seq<Container>, b: seq<Container>)
    ensures Agents(a + b) == Agents(a) + Agents(b)
  {
    if a == [] {
      assert a + b == b;
    } else {
      assert (a + b)[1..] == a[1..] + b;
      AgentsConcat(a[1..], b);
    }
  }

  lemma {:induction false} NoAgents(cs: seq<Container>)
    requires forall i :: 0 <= i < |cs| ==> cs[i].name != AGENT
    ensures Agents(cs) == []
  {
    if cs != [] { NoAgents(cs[1..]); }
  }

  lemma AgentsSplit(cs: seq<Container>)
    ensures AgentIndex(cs) == -1 <==> Agents(cs) == []
    ensures AgentIndex(cs) >= 0 ==> Agents(cs) == [cs[AgentIndex(cs)]] + Agents(cs[AgentIndex(cs) + 1..])
  {
    var i := AgentIndex(cs);
    if i == -1 {
      NoAgents(cs);
    } else {
      NoAgents(cs[..i]);
      assert cs == cs[..i] + ([cs[i]] + cs[i + 1..]);
      AgentsConcat(cs[..i], [cs[i]] + cs[i + 1..]);
      assert ([cs[i]] + cs[i + 1..])[1..] == cs[i + 1..];
    }
  }

  lemma AgentsWithout(cs: seq<Container>)
    ensures |Agents(WithoutAgent(cs))| == (if Agents(cs) == [] then 0 else |Agents(cs)| - 1)
  {
    AgentsSplit(cs);
    var i := AgentIndex(cs);
    if i >= 0 {
      NoAgents(cs[..i]);
      AgentsConcat(cs[..i], cs[i + 1..]);
    }
  }

  lemma {:induction false} SameNamesSameCount(a: seq<Container>, b: seq<Container>)
    requires SidecarLaws.SameNames(a, b)
    ensures |Agents(a)| == |Agents(b)|
  {
    if a != [] { SameNamesSameCount(a[1..], b[1..]); }
  }

  lemma AgentsPlaced(cs: seq<Container>, agent: Container)
    requires agent.name == AGENT
    ensures |Agents(Place(cs, agent))| == (if Agents(cs) == [] then 1 else |Agents(cs)|)
  {
    AgentsSplit(cs);
    var idx := AgentIndex(cs);
    if idx == -1 {
      AgentsConcat(cs, [agent]);
      assert Agents([agent]) == [agent] + Agents([agent][1..]) == [agent];
    } else {
      assert SidecarLaws.SameNames(Place(cs, agent), cs);
      SameNamesSameCount(Place(cs, agent), cs);
    }
  }

  /** What injection does to the label and to the number of agents. */
  lemma InjectEffect(a: Agent, data: ConfigData, d: Deployment)
    requires a.definition.name == AGENT && Completes(a, d) && !AssignedElsewhere(a, d)
    ensures var d' := InjectedBy(a, data, d);
            LabelOf(d') == Some(a.mark) && |Agents(d'.containers)|
                == (if Agents(d.containers) == [] then 1 else |Agents(d.containers)|)
  {
    var cs := DecoratedContainers(d, data);
    assert SidecarLaws.SameNames(cs, d.containers);
    SameNamesSameCount(cs, d.containers);
    AgentsPlaced(cs, AgentFor(a, data, d));
  }

  lemma CleanEffect(instance: string, openShift: bool, d: Deployment)
    ensures var d' := Cleaned(instance, openShift, d);
            LabelOf(d') == None && |Agents(d'.containers)|
                == (if Agents(d.containers) == [] then 0 else |Agents(d.containers)| - 1)
  {
    AgentsWithout(d.containers);
  }

  /** A webhook call leaves a deployment alone, injects a listed instance, or cleans up. */
  lemma HandledCases(w: World, d: Deployment)
    ensures var d' := Handled(w, d);
            || d' == d
            || (exists j ::
                  w.jaegers.Some? && j in w.jaegers.value && Needed(d, w.nsAnnotations) && InjectsAs(w, j, d, d'))
            || (LABEL in d.labels && AgentIndex(d.containers) >= 0
                && d' == Cleaned(d.labels[LABEL], w.platform.openShift, d))
  {
    var j := Chosen(w, d);
    if j.Some? {
      SelectedIsListed(d, w.nsAnnotations, w.jaegers.value);
      if Completes(AgentOf(j.value, w.platform), d) && !AssignedElsewhere(AgentOf(j.value, w.platform), d) {
        assert InjectsAs(w, j.value, d, Handled(w, d));
      }
    }
  }

  ghost predicate InjectsAs(w: World, j: Instance, d: Deployment, d': Deployment) {
    var a := AgentOf(j, w.platform);
    Completes(a, d) && !AssignedElsewhere(a, d) && d' == InjectedBy(a, MatchedAll(d.containers, w.configMaps), d)
  }

  // --- Safety over every run ---------------------------------------------------------------

  /** A user's own agent: present without the operator's label. */
  ghost predicate UserAgent(d: Deployment, agents: seq<Container>) {
    LABEL !in d.labels && Agents(d.containers) == agents && agents != []
  }

  lemma UserAgentStep(d: Deployment, s: Step, d': Deployment, agents: seq<Container>)
    requires UserAgent(d, agents) && Next(d, s, d')
    ensures UserAgent(d', agents)
    ensures !s.UserEdit? ==> d' == d.(annotations := d'.annotations)
  {
    AgentsSplit(d.containers);
    if s.Webhook? { HandledCases(s.w, d); }
  }

  /** An agent the user placed is never changed or removed, however long the run. */
  lemma {:induction false} UserAgentUntouched(states: seq<Deployment>, steps: seq<Step>, i: nat)
    requires Run(states, steps) && i < |states|
    requires UserAgent(states[0], Agents(states[0].containers))
    ensures UserAgent(states[i], Agents(states[0].containers))
  {
    if i > 0 {
      UserAgentUntouched(states, steps, i - 1);
      UserAgentStep(states[i - 1], steps[i - 1], states[i], Agents(states[0].containers));
    }
  }

  /** At most one agent, and one exactly when the label is there. */
  ghost predicate LabelMeansAgent(d: Deployment) {
    |Agents(d.containers)| == if LABEL in d.labels then 1 else 0
  }

  lemma LabelMeansAgentAdmitted(w: World, d: Deployment)
    requires LabelMeansAgent(d)
    ensures LabelMeansAgent(Handled(w, d))
  {
    var d' := Handled(w, d);
    HandledCases(w, d);
    if j :| w.jaegers.Some? && j in w.jaegers.value && InjectsAs(w, j, d, d') {
      LabelMeansAgentInjected(w, j, d, d');
    } else if d' != d {
      CleanEffect(d.labels[LABEL], w.platform.openShift, d);
      NoLabel(d');
    }
  }

  lemma LabelMeansAgentInjected(w: World, j: Instance, d: Deployment, d': Deployment)
    requires LabelMeansAgent(d) && InjectsAs(w, j, d, d')
    ensures LabelMeansAgent(d')
  {
    InjectEffect(AgentOf(j, w.platform), MatchedAll(d.containers, w.configMaps), d);
  }

  lemma NoLabel(d: Deployment)
    ensures LABEL in d.labels <==> LabelOf(d).Some?
  {
  }

  lemma LabelMeansAgentStep(d: Deployment, s: Step, d': Deployment)
    requires LabelMeansAgent(d) && Next(d, s, d')
    ensures LabelMeansAgent(d')
  {
    match s
    case Webhook(w) => LabelMeansAgentAdmitted(w, d);
    case AutoClean(live, openShift) =>
      if d' != d { CleanEffect(d.labels[LABEL], openShift, d); }
    case BumpRevision(_) =>
    case UserEdit(_) => assert LABEL in d'.labels <==> LabelOf(d').Some?;
  }

  /** A deployment that started bare has one agent while it is labelled and none otherwise. */
  lemma {:induction false} LabelledIffAgent(states: seq<Deployment>, steps: seq<Step>, i: nat)
    requires Run(states, steps) && i < |states|
    requires LABEL !in states[0].labels && AgentIndex(states[0].containers) == -1
    ensures LabelMeansAgent(states[i])
  {
    if i == 0 {
      AgentsSplit(states[0].containers);
    } else {
      LabelledIffAgent(states, steps, i - 1);
      LabelMeansAgentStep(states[i - 1], steps[i - 1], states[i]);
    }
  }

  /** Every instance name a request sees starts and ends with a letter or digit. */
  ghost predicate ProperNames(s: Step) {
    s.Webhook? && s.w.jaegers.Some? ==> forall j :: j in s.w.jaegers.value ==> Names.AlnumEnds(j.name)
  }

  ghost predicate ShortLabel(d: Deployment) { LABEL in d.labels ==> |d.labels[LABEL]| <= 63 }

  /** Re-injection keeps the label: it is only reached when the label is the instance's name. */
  lemma InjectKeepsLabel(w: World, j: Instance, d: Deployment, d': Deployment)
    requires InjectsAs(w, j, d, d') && Names.AlnumEnds(j.name) && ShortLabel(d)
    ensures LabelOf(d') == Some(Names.LabelForm(j.name)) && |Names.LabelForm(j.name)| <= 63
    ensures LabelOf(d).Some? ==> LabelOf(d) == LabelOf(d')
  {
    InjectEffect(AgentOf(j, w.platform), MatchedAll(d.containers, w.configMaps), d);
    Names.LabelFormFixed(j.name);
  }

  lemma LabelStep(d: Deployment, s: Step, d': Deployment)
    requires Next(d, s, d') && ProperNames(s) && ShortLabel(d)
    ensures ShortLabel(d')
    ensures LabelOf(d).Some? && LabelOf(d').Some? ==> LabelOf(d) == LabelOf(d')
  {
    if s.Webhook? { LabelOnAdmission(s.w, d); }
  }

  lemma LabelOnAdmission(w: World, d: Deployment)
    requires ProperNames(Webhook(w)) && ShortLabel(d)
    ensures ShortLabel(Handled(w, d))
    ensures LabelOf(d).Some? && LabelOf(Handled(w, d)).Some? ==> LabelOf(d) == LabelOf(Handled(w, d))
  {
    var d' := Handled(w, d);
    HandledCases(w, d);
    if j :| w.jaegers.Some? && j in w.jaegers.value && InjectsAs(w, j, d, d') { InjectKeepsLabel(w, j, d, d'); }
  }

  lemma LabelKeptAt(states: seq<Deployment>, steps: seq<Step>, k: nat)
    requires Run(states, steps) && k < |steps|
    requires forall s :: s in steps ==> ProperNames(s)
    requires ShortLabel(states[0])
    ensures LabelOf(states[k]).Some? && LabelOf(states[k + 1]).Some? ==> LabelOf(states[k]) == LabelOf(states[k + 1])
  {
    ShortLabels(states, steps, k);
    assert steps[k] in steps;
    LabelStep(states[k], steps[k], states[k + 1]);
  }

  /** From one instance to another the label goes only by way of being removed. */
  lemma LabelNeverMoves(states: seq<Deployment>, steps: seq<Step>, i: nat, k: nat)
    requires Run(states, steps) && i <= k < |states|
    requires forall s :: s in steps ==> ProperNames(s)
    requires ShortLabel(states[0])
    requires forall m :: i <= m <= k ==> LabelOf(states[m]).Some?
    ensures LabelOf(states[k]) == LabelOf(states[i])
  {
    var labels := seq(|states|, m requires 0 <= m < |states| => LabelOf(states[m]));
    forall m | i <= m < k ensures labels[m] == labels[m + 1] { LabelKeptAt(states, steps, m); }
    AllTheSame(labels, i, k);
  }

  lemma {:induction false} AllTheSame(labels: seq<Option<string>>, i: nat, k: nat)
    requires i <= k < |labels| && forall m :: i <= m < k ==> labels[m] == labels[m + 1]
    ensures labels[k] == labels[i]
  {
    if i < k { AllTheSame(labels, i, k - 1); }
  }

  lemma {:induction false} ShortLabels(states: seq<Deployment>, steps: seq<Step>, i: nat)
    requires Run(states, steps) && i < |states|
    requires forall s :: s in steps ==> ProperNames(s)
    requires ShortLabel(states[0])
    ensures ShortLabel(states[i])
  {
    if i > 0 {
      ShortLabels(states, steps, i - 1);
      assert steps[i - 1] in steps;
      LabelStep(states[i - 1], steps[i - 1], states[i]);
    }
  }

  /**
   Auto-clean looks the label up among instance names, and the label is the name's label
   form. So a deployment injected from a live instance is spared exactly when that form is
   itself the name of a live instance; with a long name it is cleaned while the instance lives.
   */
  lemma AutoCleanSparesLiveIff(a: Agent, data: ConfigData, d: Deployment, live: set<string>, openShift: bool)
    requires a.definition.name == AGENT && Completes(a, d) && !AssignedElsewhere(a, d)
    ensures var d1 := InjectedBy(a, data, d); AutoCleaned(live, openShift, d1) == d1 <==> a.mark in live
  {
    var d1 := InjectedBy(a, data, d);
    InjectEffect(a, data, d);
    if a.mark !in live { assert LABEL !in Cleaned(a.mark, openShift, d1).labels; }
  }

  const LONG_NAME: string := seq(64, i => 'a')

  /** A live instance with a name of 64 letters: auto-clean takes the agent out that was injected for it. */
  lemma LongNameIsCleaned(j: Instance, env: Platform, data: ConfigData, d: Deployment)
    requires j.name == LONG_NAME && Completes(AgentOf(j, env), d) && !AssignedElsewhere(AgentOf(j, env), d)
    ensures var d1 := InjectedBy(AgentOf(j, env), data, d); AutoCleaned({j.name}, env.openShift, d1) != d1
  {
    Names.LabelFormFixed(j.name);
    AutoCleanSparesLiveIff(AgentOf(j, env), data, d, {j.name}, env.openShift);
  }
}
