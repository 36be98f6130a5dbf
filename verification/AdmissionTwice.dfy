/**
 Admitting a deployment that the webhook has admitted before (controllers/appsv1/deployment_webhook.go),
 as every later update of it does. The second request reads the config maps through the environment of
 the changed containers.
 */
module AdmissionTwice {
  import opened Text
  import opened CommonSpec
  import opened Sidecar
  import opened SidecarLaws
  import opened Admission
  import opened Options
  import opened SidecarPrintings
  import Names

  // --- What the environment is read from ---------------------------------------------------

  type ConfigMaps = map<string, map<string, string>>

  lemma HasKeyConcat(key: string, a: ConfigData, b: ConfigData)
    ensures HasKey(key, a + b) <==> HasKey(key, a) || HasKey(key, b)
  {
    if HasKey(key, a) {
      var m :| m in a && key in m;
      assert m in a + b;
    }
    if HasKey(key, b) {
      var m :| m in b && key in m;
      assert m in a + b;
    }
  }

  lemma {:induction false} MatchedAllConcat(a: seq<Container>, b: seq<Container>, cm: ConfigMaps)
    ensures MatchedAll(a + b, cm) == MatchedAll(a, cm) + MatchedAll(b, cm)
  {
    if a == [] {
      assert a + b == b;
    } else {
      assert (a + b)[1..] == a[1..] + b;
      MatchedAllConcat(a[1..], b, cm);
    }
  }

  lemma {:induction false} MatchedAllSame(a: seq<Container>, b: seq<Container>, cm: ConfigMaps)
    requires |a| == |b| && forall i :: 0 <= i < |a| ==> a[i].envFrom == b[i].envFrom
    ensures MatchedAll(a, cm) == MatchedAll(b, cm)
  {
    if a != [] { MatchedAllSame(a[1..], b[1..], cm); }
  }

  /** Only the containers besides the agent count once the agent has been replaced. */
  lemma KeysAfterPlacing(key: string, cs: seq<Container>, agent: Container, cm: ConfigMaps)
    requires agent.envFrom == []
    ensures HasKey(key, MatchedAll(Place(cs, agent), cm)) <==> HasKey(key, MatchedAll(WithoutAgent(cs), cm))
    ensures HasKey(key, MatchedAll(WithoutAgent(cs), cm)) ==> HasKey(key, MatchedAll(cs, cm))
  {
    var i := AgentIndex(cs);
    if i >= 0 {
      assert Place(cs, agent) == cs[..i] + ([agent] + cs[i + 1..]);
      assert cs == cs[..i] + ([cs[i]] + cs[i + 1..]);
      MatchedAllConcat(cs[..i], [agent] + cs[i + 1..], cm);
      MatchedAllConcat([agent], cs[i + 1..], cm);
      MatchedAllConcat(cs[..i], [cs[i]] + cs[i + 1..], cm);
      MatchedAllConcat([cs[i]], cs[i + 1..], cm);
      MatchedAllConcat(cs[..i], cs[i + 1..], cm);
      assert [agent][1..] == [] && MatchedAll([agent], cm) == [];
      HasKeyConcat(key, MatchedAll(cs[..i], cm), MatchedAll(cs[i + 1..], cm));
      HasKeyConcat(key, MatchedAll([cs[i]], cm), MatchedAll(cs[i + 1..], cm));
      HasKeyConcat(key, MatchedAll(cs[..i], cm), MatchedAll([cs[i]], cm) + MatchedAll(cs[i + 1..], cm));
      assert MatchedAll([agent], cm) + MatchedAll(cs[i + 1..], cm) == MatchedAll(cs[i + 1..], cm);
    } else {
      MatchedAllConcat(cs, [agent], cm);
      assert [agent][1..] == [] && MatchedAll([agent], cm) == [];
      assert MatchedAll(cs, cm) + [] == MatchedAll(cs, cm);
    }
  }

  // --- What changes the second time --------------------------------------------------------

  /** A variable that only the agent's config maps provided is missing in another container. */
  ghost predicate Uncovered(name: string, d: Deployment, cm: ConfigMaps) {
    && HasKey(name, MatchedAll(d.containers, cm)) && !HasKey(name, MatchedAll(WithoutAgent(d.containers), cm))
    && exists i :: 0 <= i < |d.containers| && i != AgentIndex(d.containers) && !HasEnv(name, d.containers[i].env)
  }

  /** The second request decorates a container that the first left alone. */
  ghost predicate DecoratesMore(d: Deployment, cm: ConfigMaps) {
    AppName(d.templateLabels, d.namespace).Some? && (Uncovered(SERVICE_NAME, d, cm) || Uncovered(PROPAGATION, d, cm))
  }

  lemma NamesDiffer()
    ensures SERVICE_NAME != PROPAGATION
  {
    assert SERVICE_NAME[7] == 'S' && PROPAGATION[7] == 'P';
  }

  lemma DecoratedHas(vars: seq<EnvVar>, app: string, data: ConfigData, name: string)
    requires name == SERVICE_NAME || name == PROPAGATION
    ensures HasEnv(name, DecoratedEnv(vars, app, data)) <==> HasEnv(name, vars) || !HasKey(name, data)
  {
    NamesDiffer();
    WithVarHas(vars, SERVICE_NAME, app, data, name);
    WithVarHas(WithVar(vars, SERVICE_NAME, app, data), PROPAGATION, "jaeger,b3,w3c", data, name);
  }

  lemma WithVarHas(vars: seq<EnvVar>, set': string, value: string, data: ConfigData, name: string)
    ensures HasEnv(name, WithVar(vars, set', value, data)) <==>
              HasEnv(name, vars) || (name == set' && !HasKey(set', data))
  {
    var r := WithVar(vars, set', value, data);
    if HasEnv(name, vars) {
      var v :| v in vars && v.name == name;
      assert v in r;
    } else if name == set' && !HasKey(set', data) {
      assert EnvVar(set', value) in r;
    }
  }

  lemma DecoratedNothing(vars: seq<EnvVar>, app: string, data: ConfigData)
    requires HasEnv(SERVICE_NAME, vars) || HasKey(SERVICE_NAME, data)
    requires HasEnv(PROPAGATION, vars) || HasKey(PROPAGATION, data)
    ensures DecoratedEnv(vars, app, data) == vars
  {
  }

  /**
   Decorating again with the config maps of the changed containers leaves the others alone, unless
   one is uncovered.
   */
  lemma DecoratedOthers(d: Deployment, agent: Container, d1: Deployment, cm: ConfigMaps, i: nat)
    requires agent.name == AGENT && agent.envFrom == []
    requires d1.templateLabels == d.templateLabels && d1.namespace == d.namespace
    requires d1.containers == Place(DecoratedContainers(d, MatchedAll(d.containers, cm)), agent)
    requires !DecoratesMore(d, cm) && i < |d1.containers|
               && i != Slot(DecoratedContainers(d, MatchedAll(d.containers, cm)))
    ensures DecoratedContainers(d1, MatchedAll(d1.containers, cm))[i] == d1.containers[i]
  {
    var data := MatchedAll(d.containers, cm);
    var cs := DecoratedContainers(d, data);
    PlaceShape(cs, agent);
    SameNamesSameIndex(d.containers, cs);
    var app := AppName(d.templateLabels, d.namespace);
    if app.Some? {
      DataAfter(d, agent, d1, cm, SERVICE_NAME);
      DataAfter(d, agent, d1, cm, PROPAGATION);
      var env := d.containers[i].env;
      DecoratedHas(env, app.value, data, SERVICE_NAME);
      DecoratedHas(env, app.value, data, PROPAGATION);
      DecoratedNothing(d1.containers[i].env, app.value, MatchedAll(d1.containers, cm));
    }
  }

  lemma DataAfter(d: Deployment, agent: Container, d1: Deployment, cm: ConfigMaps, key: string)
    requires agent.envFrom == []
    requires d1.containers == Place(DecoratedContainers(d, MatchedAll(d.containers, cm)), agent)
    ensures HasKey(key, MatchedAll(d1.containers, cm)) <==> HasKey(key, MatchedAll(WithoutAgent(d.containers), cm))
    ensures HasKey(key, MatchedAll(WithoutAgent(d.containers), cm)) ==> HasKey(key, MatchedAll(d.containers, cm))
  {
    var cs := DecoratedContainers(d, MatchedAll(d.containers, cm));
    KeysAfterPlacing(key, cs, agent, cm);
    KeysAfterPlacing(key, d.containers, agent, cm);
    SameWithoutAgent(cs, d.containers, cm);
  }

  lemma SameWithoutAgent(a: seq<Container>, b: seq<Container>, cm: ConfigMaps)
    requires |a| == |b| && forall i :: 0 <= i < |a| ==> a[i].name == b[i].name && a[i].envFrom == b[i].envFrom
    ensures MatchedAll(WithoutAgent(a), cm) == MatchedAll(WithoutAgent(b), cm)
  {
    SameNamesSameIndex(a, b);
    MatchedAllSame(WithoutAgent(a), WithoutAgent(b), cm);
  }

  // --- The webhook -------------------------------------------------------------------------

  /** The request injects an instance that the next one will inject again. */
  ghost predicate InjectsForGood(w: World, d: Deployment) {
    var j := Chosen(w, d);
    && j.Some? && Completes(AgentOf(j.value, w.platform), d) && !AssignedElsewhere(AgentOf(j.value, w.platform), d)
    && Names.LabelForm(j.value.name) == j.value.name
  }

  lemma ChosenAgain(w: World, d: Deployment)
    requires Chosen(w, d).Some? && Completes(AgentOf(Chosen(w, d).value, w.platform), d)
    requires !AssignedElsewhere(AgentOf(Chosen(w, d).value, w.platform), d)
    ensures Chosen(w, Handled(w, d)) == Chosen(w, d)
  {
    ChosenAfter(w, AgentOf(Chosen(w, d).value, w.platform), MatchedAll(d.containers, w.configMaps), d);
  }

  /** An injected deployment asks for the instance that it asked for before. */
  lemma ChosenAfter(w: World, a: Agent, data: ConfigData, d: Deployment)
    requires Chosen(w, d).Some? && Completes(a, d) && !AssignedElsewhere(a, d)
    ensures var e := InjectedBy(a, data, d);
            Chosen(w, e) == Chosen(w, d) && ChosenAt(w, e) == ChosenAt(w, d)
  {
    SameAnnotation(d.annotations.value);
    SameAppLabels(d.labels, a.mark);
    ChosenLike(w, d, InjectedBy(a, data, d));
  }

  /** The choice depends on the annotation and the namespace alone, as long as the agent is the operator's. */
  lemma ChosenLike(w: World, d: Deployment, e: Deployment)
    requires Chosen(w, d).Some?
    requires e.namespace == d.namespace && IsJaeger(e.labels) == IsJaeger(d.labels) && LABEL in e.labels
    requires ANNOTATION in Annotation(e) <==> ANNOTATION in Annotation(d)
    requires Get(Annotation(e), ANNOTATION) == Get(Annotation(d), ANNOTATION)
    ensures Chosen(w, e) == Chosen(w, d) && ChosenAt(w, e) == ChosenAt(w, d)
  {
  }

  lemma SameAnnotation(m: map<string, string>)
    ensures Get(Annotated(m), ANNOTATION) == Get(m, ANNOTATION) && (ANNOTATION in Annotated(m) <==> ANNOTATION in m)
  {
    assert ANNOTATION[0] == 's';
    assert forall k :: k in PROMETHEUS ==> k[0] == 'p';
  }

  lemma SameAppLabels(labels: map<string, string>, mark: string)
    ensures IsJaeger(labels[LABEL := mark]) == IsJaeger(labels)
  {
    assert LABEL[0] == 's';
  }

  /** Injecting what was injected, with the config maps of the changed containers. */
  lemma InjectedAgain(a: Agent, d: Deployment, cm: ConfigMaps)
    requires a.definition.name == AGENT && a.definition.envFrom == [] && a.mark == a.instance
    requires Completes(a, d) && !AssignedElsewhere(a, d) && NamesWithoutComma(d)
    ensures var d1 := InjectedBy(a, MatchedAll(d.containers, cm), d);
            Completes(a, d1) && (InjectedBy(a, MatchedAll(d1.containers, cm), d1) == d1 <==> !DecoratesMore(d, cm))
  {
    var data := MatchedAll(d.containers, cm);
    var d1 := InjectedBy(a, data, d);
    InjectedTwice(a, data, d);
    if DecoratesMore(d, cm) {
      MoreIsDecorated(a, d, cm);
    } else {
      NoMoreIsDecorated(a, d, cm);
    }
  }

  lemma NoMoreIsDecorated(a: Agent, d: Deployment, cm: ConfigMaps)
    requires a.definition.name == AGENT && a.definition.envFrom == [] && a.mark == a.instance
    requires Completes(a, d) && !AssignedElsewhere(a, d) && NamesWithoutComma(d) && !DecoratesMore(d, cm)
    ensures var d1 := InjectedBy(a, MatchedAll(d.containers, cm), d);
            Completes(a, d1) && InjectedBy(a, MatchedAll(d1.containers, cm), d1) == d1
  {
    var d1 := InjectedBy(a, MatchedAll(d.containers, cm), d);
    ContainersStay(a, d, cm);
    DedupSuffix(d.volumes, a.volumes, VolumeName);
    DedupSuffix(d.pullSecrets, a.pullSecrets, SecretName);
    AnnotatedTwice(d.annotations.value);
    assert d1.labels[LABEL := a.mark] == d1.labels;
  }

  lemma ContainersStay(a: Agent, d: Deployment, cm: ConfigMaps)
    requires a.definition.name == AGENT && a.definition.envFrom == [] && a.mark == a.instance
    requires Completes(a, d) && !AssignedElsewhere(a, d) && NamesWithoutComma(d) && !DecoratesMore(d, cm)
    ensures var d1 := InjectedBy(a, MatchedAll(d.containers, cm), d);
            var data1 := MatchedAll(d1.containers, cm);
            Completes(a, d1) && !AssignedElsewhere(a, d1)
            && Place(DecoratedContainers(d1, data1), AgentFor(a, data1, d1)) == d1.containers
  {
    var data := MatchedAll(d.containers, cm);
    var d1, agent := InjectedBy(a, data, d), AgentFor(a, data, d);
    var cs, cs1 := DecoratedContainers(d, data), DecoratedContainers(d1, MatchedAll(d1.containers, cm));
    TagsAgain(a, data, d);
    PlaceShape(cs, agent);
    forall i | 0 <= i < |cs1| && i != Slot(cs) ensures cs1[i] == d1.containers[i] {
      DecoratedOthers(d, agent, d1, cm, i);
    }
    PortAgain(a.adminPort, cs, agent, cs1);
    assert AgentFor(a, MatchedAll(d1.containers, cm), d1) == agent;
    PlaceAgain(cs, agent, cs1);
  }

  lemma MoreIsDecorated(a: Agent, d: Deployment, cm: ConfigMaps)
    requires a.definition.name == AGENT && a.definition.envFrom == [] && a.mark == a.instance
    requires Completes(a, d) && !AssignedElsewhere(a, d) && NamesWithoutComma(d) && DecoratesMore(d, cm)
    ensures var d1 := InjectedBy(a, MatchedAll(d.containers, cm), d);
            Completes(a, d1) && InjectedBy(a, MatchedAll(d1.containers, cm), d1) != d1
  {
    var d1 := InjectedBy(a, MatchedAll(d.containers, cm), d);
    TagsAgain(a, MatchedAll(d.containers, cm), d);
    var name := if Uncovered(SERVICE_NAME, d, cm) then SERVICE_NAME else PROPAGATION;
    var i := StillMissing(a, d, cm, name);
    ChangedAt(a, MatchedAll(d1.containers, cm), d1, i, name);
  }

  lemma OtherInPlace(a: Agent, data: ConfigData, d: Deployment, i: nat)
    requires a.definition.name == AGENT && Completes(a, d) && !AssignedElsewhere(a, d)
    requires i < |d.containers| && i != AgentIndex(d.containers)
    ensures var cs := InjectedBy(a, data, d).containers;
            i < |cs| && i != AgentIndex(cs) && cs[i] == DecoratedContainers(d, data)[i]
  {
    var cs := DecoratedContainers(d, data);
    PlaceShape(cs, AgentFor(a, data, d));
    SameNamesSameIndex(d.containers, cs);
  }

  /** A container without the variable, which the first request did not give it, and no config map that provides it. */
  lemma StillMissing(a: Agent, d: Deployment, cm: ConfigMaps, name: string) returns (i: nat)
    requires a.definition.name == AGENT && a.definition.envFrom == []
    requires Completes(a, d) && !AssignedElsewhere(a, d) && Uncovered(name, d, cm)
    requires name in {SERVICE_NAME, PROPAGATION} && AppName(d.templateLabels, d.namespace).Some?
    ensures var d1 := InjectedBy(a, MatchedAll(d.containers, cm), d);
            && i < |d1.containers| && i != AgentIndex(d1.containers) && !HasEnv(name, d1.containers[i].env)
            && !HasKey(name, MatchedAll(d1.containers, cm))
  {
    var data := MatchedAll(d.containers, cm);
    i :| 0 <= i < |d.containers| && i != AgentIndex(d.containers) && !HasEnv(name, d.containers[i].env);
    OtherInPlace(a, data, d, i);
    DataAfter(d, AgentFor(a, data, d), InjectedBy(a, data, d), cm, name);
    DecoratedHas(d.containers[i].env, AppName(d.templateLabels, d.namespace).value, data, name);
  }

  lemma ChangedAt(a: Agent, data: ConfigData, d: Deployment, i: nat, name: string)
    requires a.definition.name == AGENT && Completes(a, d) && !AssignedElsewhere(a, d)
    requires i < |d.containers| && i != AgentIndex(d.containers) && AppName(d.templateLabels, d.namespace).Some?
    requires name in {SERVICE_NAME, PROPAGATION} && !HasEnv(name, d.containers[i].env) && !HasKey(name, data)
    ensures InjectedBy(a, data, d) != d
  {
    DecoratedHas(d.containers[i].env, AppName(d.templateLabels, d.namespace).value, data, name);
    OtherInPlace(a, data, d, i);
  }

  /** The same for two requests that print the agent's options in one order. */
  lemma HandledAgainIff(w: World, d: Deployment)
    requires NamesWithoutComma(d)
    ensures Handled(w, Handled(w, d)) == Handled(w, d) <==> !(InjectsForGood(w, d) && DecoratesMore(d, w.configMaps))
  {
    var j := Chosen(w, d);
    if j.Some? {
      var a := AgentOf(j.value, w.platform);
      if Completes(a, d) && !AssignedElsewhere(a, d) {
        ChosenAgain(w, d);
        var d1 := Handled(w, d);
        if a.mark == a.instance {
          InjectedAgain(a, d, w.configMaps);
        } else {
          assert AssignedElsewhere(a, d1);
        }
      }
    } else if CleansUp(w, d) {
      CleanedIsNotNeeded(w, d);
    }
  }

  lemma CleanedIsNotNeeded(w: World, d: Deployment)
    requires CleansUp(w, d)
    ensures Chosen(w, Handled(w, d)).None? && !CleansUp(w, Handled(w, d))
  {
    var c := Cleaned(d.labels[LABEL], w.platform.openShift, d);
    assert Annotation(c) == Annotation(d) && LABEL !in c.labels;
  }

  // --- Two requests print the options anew -------------------------------------------------

  /** The same instances, with the options `opts` of their agents printed anew. */
  ghost predicate PrintedAnew(js: seq<Instance>, opts: seq<Opts>, ks: seq<Instance>) {
    && |js| == |opts| == |ks|
    && forall i :: 0 <= i < |js| ==> ks[i] == js[i].(options := ks[i].options) && Printing(opts[i], ks[i].options)
  }

  /** What another request finds in the surroundings `w`. */
  ghost predicate Finds(w: World, opts: seq<Opts>, v: World) {
    && v == w.(jaegers := v.jaegers)
    && (w.jaegers.None? <==> v.jaegers.None?)
    && (w.jaegers.Some? ==> PrintedAnew(w.jaegers.value, opts, v.jaegers.value))
  }

  /** The first position at which `f` holds, or the length. */
  function FirstAt(f: Instance -> bool, items: seq<Instance>): (i: nat)
    ensures i <= |items| && (i < |items| ==> f(items[i]))
  {
    if items == [] || f(items[0]) then 0 else 1 + FirstAt(f, items[1..])
  }

  function JaegerAt(ns: string, name: string, items: seq<Instance>): nat {
    var same := FirstAt(NamedIn(ns, name), items);
    if same < |items| then same else FirstAt(Named(name), items)
  }

  /** The position of the selected instance, or the length. */
  function SelectAt(d: Deployment, ns: map<string, string>, items: seq<Instance>): nat {
    var depName, nsName := Get(Annotation(d), ANNOTATION), Get(ns, ANNOTATION);
    if depName != "" && !EqualFold(depName, "true") then JaegerAt(d.namespace, depName, items)
    else
      var byNs := JaegerAt(d.namespace, nsName, items);
      if byNs < |items| then byNs
      else if EqualFold(depName, "true") || EqualFold(nsName, "true") then
        if |items| == 1 then 0
        else if |InNamespace(d.namespace, items)| == 1 then FirstAt(Local(d.namespace), items) else |items|
      else |items|
  }

  function At(items: seq<Instance>, i: nat): Option<Instance> { if i < |items| then Some(items[i]) else None }

  lemma JaegerIsAt(ns: string, name: string, items: seq<Instance>)
    ensures GetJaeger(ns, name, items) == At(items, JaegerAt(ns, name, items))
  {
    FirstNamedIsAt(name, items);
    FirstNamedInIsAt(ns, name, items);
  }

  lemma {:induction false} FirstNamedIsAt(name: string, items: seq<Instance>)
    ensures FirstNamed(name, items) == At(items, FirstAt(Named(name), items))
  {
    if items != [] { FirstNamedIsAt(name, items[1..]); }
  }

  lemma {:induction false} FirstNamedInIsAt(ns: string, name: string, items: seq<Instance>)
    ensures FirstNamedIn(ns, name, items) == At(items, FirstAt(NamedIn(ns, name), items))
  {
    if items != [] { FirstNamedInIsAt(ns, name, items[1..]); }
  }

  lemma {:induction false} LocalIsAt(ns: string, items: seq<Instance>)
    ensures At(InNamespace(ns, items), 0) == At(items, FirstAt(Local(ns), items))
  {
    if items != [] && items[0].namespace != ns { LocalIsAt(ns, items[1..]); }
  }

  lemma SelectedIsAt(d: Deployment, ns: map<string, string>, items: seq<Instance>)
    ensures Select(d, ns, items) == At(items, SelectAt(d, ns, items))
  {
    JaegerIsAt(d.namespace, Get(Annotation(d), ANNOTATION), items);
    JaegerIsAt(d.namespace, Get(ns, ANNOTATION), items);
    LocalIsAt(d.namespace, items);
  }

  /** The predicate does not look at the printed options. */
  ghost predicate Blind(f: Instance -> bool) { forall j: Instance, p :: f(j.(options := p)) == f(j) }

  lemma {:induction false} SameFirst(f: Instance -> bool, js: seq<Instance>, opts: seq<Opts>, ks: seq<Instance>)
    requires Blind(f) && PrintedAnew(js, opts, ks)
    ensures FirstAt(f, js) == FirstAt(f, ks)
  {
    if js != [] { SameFirst(f, js[1..], opts[1..], ks[1..]); }
  }

  lemma {:induction false} SameLocals(ns: string, js: seq<Instance>, opts: seq<Opts>, ks: seq<Instance>)
    requires PrintedAnew(js, opts, ks)
    ensures |InNamespace(ns, js)| == |InNamespace(ns, ks)|
  {
    if js != [] { SameLocals(ns, js[1..], opts[1..], ks[1..]); }
  }

  lemma SameJaeger(ns: string, name: string, js: seq<Instance>, opts: seq<Opts>, ks: seq<Instance>)
    requires PrintedAnew(js, opts, ks)
    ensures JaegerAt(ns, name, js) == JaegerAt(ns, name, ks)
  {
    assert Blind(NamedIn(ns, name)) && Blind(Named(name));
    SameFirst(NamedIn(ns, name), js, opts, ks);
    SameFirst(Named(name), js, opts, ks);
  }

  lemma SameSelected(d: Deployment, ns: map<string, string>, js: seq<Instance>, opts: seq<Opts>, ks: seq<Instance>)
    requires PrintedAnew(js, opts, ks)
    ensures SelectAt(d, ns, js) == SelectAt(d, ns, ks)
  {
    SameJaeger(d.namespace, Get(Annotation(d), ANNOTATION), js, opts, ks);
    SameJaeger(d.namespace, Get(ns, ANNOTATION), js, opts, ks);
    SameLocals(d.namespace, js, opts, ks);
    assert Blind(Local(d.namespace));
    SameFirst(Local(d.namespace), js, opts, ks);
  }

  /** The position of the instance that a request chooses. */
  function ChosenAt(w: World, d: Deployment): (i: nat)
    requires Chosen(w, d).Some?
    ensures i < |w.jaegers.value| && w.jaegers.value[i] == Chosen(w, d).value
  {
    SelectedIsAt(d, w.nsAnnotations, w.jaegers.value);
    SelectAt(d, w.nsAnnotations, w.jaegers.value)
  }

  /** Another request chooses the instance at the same position. */
  lemma ChosenAnew(w: World, opts: seq<Opts>, v: World, d: Deployment)
    requires Finds(w, opts, v)
    ensures Chosen(v, d).Some? <==> Chosen(w, d).Some?
    ensures Chosen(w, d).Some? ==>
              && ChosenAt(v, d) == ChosenAt(w, d) < |opts|
              && Chosen(v, d).value == Chosen(w, d).value.(options := Chosen(v, d).value.options)
              && Printing(opts[ChosenAt(w, d)], Chosen(v, d).value.options)
  {
    if w.jaegers.Some? {
      SelectedIsAt(d, w.nsAnnotations, w.jaegers.value);
      SelectedIsAt(d, w.nsAnnotations, v.jaegers.value);
      SameSelected(d, w.nsAnnotations, w.jaegers.value, opts, v.jaegers.value);
    }
  }

  /** Any printing of an instance's options is found by some request. */
  lemma FoundSome(w: World, opts: seq<Opts>, i: nat, p: seq<string>) returns (v: World)
    requires Finds(w, opts, w) && w.jaegers.Some? && i < |opts| && Printing(opts[i], p)
    ensures Finds(w, opts, v) && v.jaegers.value[i] == w.jaegers.value[i].(options := p)
  {
    v := w.(jaegers := Some(w.jaegers.value[i := w.jaegers.value[i].(options := p)]));
  }

  /** Without a chosen instance the printing does not matter. */
  lemma UnchosenAlike(w: World, opts: seq<Opts>, u: World, v: World, d: Deployment)
    requires Finds(w, opts, u) && Finds(w, opts, v) && Chosen(w, d).None?
    ensures Handled(v, Handled(u, d)) == Handled(u, d)
  {
    ChosenAnew(w, opts, u, d);
    if CleansUp(u, d) { CleanedIsNotNeeded(u, d); }
    ChosenAnew(w, opts, u, Handled(u, d));
    ChosenAnew(w, opts, v, Handled(u, d));
  }

  /** The instance that both requests are about, with the options `p` and `q` that they printed. */
  lemma SecondChoice(w: World, opts: seq<Opts>, u: World, v: World, d: Deployment)
    returns (p: seq<string>, q: seq<string>)
    requires Finds(w, opts, u) && Finds(w, opts, v) && Chosen(w, d).Some?
    ensures var j, o := Chosen(w, d).value, opts[ChosenAt(w, d)];
            && Chosen(u, d) == Some(j.(options := p)) && Printing(o, p)
            && Chosen(v, Handled(u, d)) == Some(j.(options := q)) && Printing(o, q)
  {
    ChosenAnew(w, opts, u, d);
    var a := AgentOf(Chosen(u, d).value, w.platform);
    if Completes(a, d) && !AssignedElsewhere(a, d) {
      ChosenAfter(w, a, MatchedAll(d.containers, w.configMaps), d);
    }
    ChosenAnew(w, opts, v, Handled(u, d));
    p, q := Chosen(u, d).value.options, Chosen(v, Handled(u, d)).value.options;
  }

  /** The chosen instance as printed in `w`. */
  lemma PrintedHere(w: World, opts: seq<Opts>, d: Deployment)
    requires Finds(w, opts, w) && Chosen(w, d).Some?
    ensures Printing(opts[ChosenAt(w, d)], Chosen(w, d).value.options)
    ensures AgentOf(Chosen(w, d).value, w.platform)
              == Printed(Chosen(w, d).value, w.platform, Chosen(w, d).value.options)
  {
    ChosenAnew(w, opts, w, d);
    var j := Chosen(w, d).value;
    assert j.(options := j.options) == j;
  }

  /** Not injected, or not again: the second request leaves the deployment alone. */
  lemma NotForGoodAlike(w: World, opts: seq<Opts>, u: World, v: World, d: Deployment)
    requires Finds(w, opts, w) && Finds(w, opts, u) && Finds(w, opts, v) && Chosen(w, d).Some? && !InjectsForGood(w, d)
    ensures Handled(v, Handled(u, d)) == Handled(u, d)
  {
    var p, q := SecondChoice(w, opts, u, v, d);
    var j, o := Chosen(w, d).value, opts[ChosenAt(w, d)];
    PrintedHere(w, opts, d);
    PrintedSameNeeds(j, w.platform, o, j.options, p, d);
    PrintedSameNeeds(j, w.platform, o, j.options, q, d);
    var a := Printed(j, w.platform, p);
    if Completes(a, d) && !AssignedElsewhere(a, d) {
      assert AssignedElsewhere(Printed(j, w.platform, q), Handled(u, d));
    }
  }

  /** Injected for good: both requests inject the instance, each with its own printing. */
  lemma ForGood(w: World, opts: seq<Opts>, u: World, v: World, d: Deployment) returns (p: seq<string>, q: seq<string>)
    requires Finds(w, opts, w) && Finds(w, opts, u) && Finds(w, opts, v) && InjectsForGood(w, d) && NamesWithoutComma(d)
    ensures var j, o := Chosen(w, d).value, opts[ChosenAt(w, d)];
            var a, b := Printed(j, w.platform, p), Printed(j, w.platform, q);
            && Chosen(u, d) == Some(j.(options := p)) && Printing(o, p)
            && Chosen(v, Handled(u, d)) == Some(j.(options := q)) && Printing(o, q)
            && Completes(a, d) && !AssignedElsewhere(a, d)
            && Handled(u, d) == InjectedBy(a, MatchedAll(d.containers, w.configMaps), d)
            && Completes(b, Handled(u, d)) && !AssignedElsewhere(b, Handled(u, d))
            && Handled(v, Handled(u, d))
                == InjectedBy(b, MatchedAll(Handled(u, d).containers, w.configMaps), Handled(u, d))
  {
    p, q := SecondChoice(w, opts, u, v, d);
    var j, o := Chosen(w, d).value, opts[ChosenAt(w, d)];
    PrintedHere(w, opts, d);
    PrintedSameNeeds(j, w.platform, o, j.options, p, d);
    InjectedAgain(Printed(j, w.platform, p), d, w.configMaps);
    PrintedSameNeeds(j, w.platform, o, p, q, Handled(u, d));
  }

  lemma ForGoodAgreedIff(w: World, opts: seq<Opts>, u: World, v: World, d: Deployment)
    requires Finds(w, opts, w) && Finds(w, opts, u) && Finds(w, opts, v) && InjectsForGood(w, d) && NamesWithoutComma(d)
    requires PortsAgreed(AgentPortOptions(), opts[ChosenAt(w, d)])
    ensures Handled(v, Handled(u, d)) == Handled(u, d) <==> !DecoratesMore(d, w.configMaps)
  {
    var p, q := ForGood(w, opts, u, v, d);
    var j, o := Chosen(w, d).value, opts[ChosenAt(w, d)];
    var a, b := Printed(j, w.platform, p), Printed(j, w.platform, q);
    PortOptionsReadable();
    PrintedAlike(j, w.platform, o, p, q);
    InjectedAgain(a, d, w.configMaps);
    AlikeInject(a, b, MatchedAll(Handled(u, d).containers, w.configMaps), Handled(u, d));
  }

  /** Two requests whose printings give the agent different ports. */
  lemma PortsChange(w: World, opts: seq<Opts>, d: Deployment) returns (u: World, v: World)
    requires Finds(w, opts, w) && InjectsForGood(w, d) && NamesWithoutComma(d)
    requires !PortsAgreed(AgentPortOptions(), opts[ChosenAt(w, d)])
    ensures Finds(w, opts, u) && Finds(w, opts, v) && Handled(v, Handled(u, d)) != Handled(u, d)
  {
    var i := ChosenAt(w, d);
    PortOptionsReadable();
    var p, q := OrdersOfPorts(Chosen(w, d).value, w.platform, opts[i]);
    u := FoundSome(w, opts, i, p);
    v := FoundSome(w, opts, i, q);
    AtPosition(w, opts, u, d, i);
    InjectedAlready(w, opts, u, d);
    AtPosition(w, opts, v, Handled(u, d), i);
    var p', q' := ForGood(w, opts, u, v, d);
    AgentPortsInjected(Printed(Chosen(w, d).value, w.platform, p), MatchedAll(d.containers, w.configMaps), d);
    AgentPortsInjected(Printed(Chosen(w, d).value, w.platform, q), MatchedAll(Handled(u, d).containers, w.configMaps),
        Handled(u, d));
  }

  lemma InjectedAlready(w: World, opts: seq<Opts>, u: World, d: Deployment)
    requires Finds(w, opts, w) && Finds(w, opts, u) && InjectsForGood(w, d) && NamesWithoutComma(d)
    ensures Chosen(w, Handled(u, d)) == Chosen(w, d) && ChosenAt(w, Handled(u, d)) == ChosenAt(w, d)
  {
    var p, q := ForGood(w, opts, u, u, d);
    ChosenAfter(w, Printed(Chosen(w, d).value, w.platform, p), MatchedAll(d.containers, w.configMaps), d);
  }

  lemma AtPosition(w: World, opts: seq<Opts>, v: World, d: Deployment, i: nat)
    requires Finds(w, opts, v) && Chosen(w, d).Some? && i == ChosenAt(w, d)
    ensures Chosen(v, d) == Some(v.jaegers.value[i])
  {
    ChosenAnew(w, opts, v, d);
  }

  /** Some options of the chosen instance that answer to the name of a port read differently. */
  ghost predicate OrderMatters(w: World, opts: seq<Opts>, d: Deployment)
    requires Finds(w, opts, w) && Chosen(w, d).Some?
  {
    !PortsAgreed(AgentPortOptions(), opts[ChosenAt(w, d)])
  }

  /** Whatever two requests print, the second one changes nothing. */
  ghost predicate SettlesAlways(w: World, opts: seq<Opts>, d: Deployment) {
    forall u, v :: Finds(w, opts, u) && Finds(w, opts, v) ==> Handled(v, Handled(u, d)) == Handled(u, d)
  }

  lemma NotForGoodSettles(w: World, opts: seq<Opts>, d: Deployment)
    requires Finds(w, opts, w) && !InjectsForGood(w, d)
    ensures SettlesAlways(w, opts, d)
  {
    forall u, v | Finds(w, opts, u) && Finds(w, opts, v) ensures Handled(v, Handled(u, d)) == Handled(u, d) {
      if Chosen(w, d).None? { UnchosenAlike(w, opts, u, v, d); } else { NotForGoodAlike(w, opts, u, v, d); }
    }
  }

  lemma ForGoodSettlesIff(w: World, opts: seq<Opts>, d: Deployment)
    requires NamesWithoutComma(d) && Finds(w, opts, w) && InjectsForGood(w, d) && !OrderMatters(w, opts, d)
    ensures SettlesAlways(w, opts, d) <==> !DecoratesMore(d, w.configMaps)
  {
    if DecoratesMore(d, w.configMaps) {
      ForGoodAgreedIff(w, opts, w, w, d);
      assert Finds(w, opts, w) && Handled(w, Handled(w, d)) != Handled(w, d);
    } else {
      forall u, v | Finds(w, opts, u) && Finds(w, opts, v) ensures Handled(v, Handled(u, d)) == Handled(u, d) {
        ForGoodAgreedIff(w, opts, u, v, d);
      }
    }
  }

  lemma OrderUnsettles(w: World, opts: seq<Opts>, d: Deployment)
    requires NamesWithoutComma(d) && Finds(w, opts, w) && InjectsForGood(w, d) && OrderMatters(w, opts, d)
    ensures !SettlesAlways(w, opts, d)
  {
    var u, v := PortsChange(w, opts, d);
    assert Finds(w, opts, u) && Finds(w, opts, v) && Handled(v, Handled(u, d)) != Handled(u, d);
  }

  /**
   Admitting an admitted deployment again, in the same surroundings `w` but with the options of
   the agents printed anew in any order, changes nothing if and only if no instance is injected
   for good, or the first request did not take away config maps that another container relied on,
   those of an agent that was replaced, and the order of the options does not show in the ports.
   */
  lemma HandledTwiceIff(w: World, opts: seq<Opts>, d: Deployment)
    requires NamesWithoutComma(d) && Finds(w, opts, w)
    ensures SettlesAlways(w, opts, d) <==>
              !(InjectsForGood(w, d) && (DecoratesMore(d, w.configMaps) || OrderMatters(w, opts, d)))
  {
    if !InjectsForGood(w, d) {
      NotForGoodSettles(w, opts, d);
    } else if OrderMatters(w, opts, d) {
      OrderUnsettles(w, opts, d);
    } else {
      ForGoodSettlesIff(w, opts, d);
    }
  }

  // --- An input at which the second request changes more ------------------------------------

  /**
   The old agent read its environment, and with it the service name, from a config map that the
   application does not name.
   */
  ghost predicate NamedByAgentOnly(d: Deployment, cm: ConfigMaps) {
    && |d.containers| == 2 && d.containers[0].name != AGENT && d.containers[1].name == AGENT
    && d.containers[0].env == [] && d.containers[0].envFrom == [] && d.containers[1].envFrom == ["names"]
    && "names" in cm && SERVICE_NAME in cm["names"] && "app" in d.templateLabels
  }

  lemma AgentConfigIsLost(w: World, d: Deployment)
    requires NamesWithoutComma(d) && NamedByAgentOnly(d, w.configMaps) && InjectsForGood(w, d)
    ensures Handled(w, Handled(w, d)) != Handled(w, d)
  {
    NamedIsUncovered(d, w.configMaps);
    HandledAgainIff(w, d);
  }

  lemma NamedIsUncovered(d: Deployment, cm: ConfigMaps)
    requires NamedByAgentOnly(d, cm)
    ensures DecoratesMore(d, cm)
  {
    var cs := d.containers;
    assert AgentIndex(cs) == 1;
    OnlyTheAgents(cs[0], cs[1], cm);
    assert cs == [cs[0], cs[1]];
    assert !HasEnv(SERVICE_NAME, cs[0].env);
    assert Uncovered(SERVICE_NAME, d, cm);
  }

  lemma OnlyTheAgents(app: Container, agent: Container, cm: ConfigMaps)
    requires app.name != AGENT && agent.name == AGENT && app.envFrom == [] && agent.envFrom == ["names"]
    requires "names" in cm && SERVICE_NAME in cm["names"]
    ensures HasKey(SERVICE_NAME, MatchedAll([app, agent], cm))
              && !HasKey(SERVICE_NAME, MatchedAll(WithoutAgent([app, agent]), cm))
  {
    ReadsNames(agent, cm);
    MatchedAllConcat([app], [agent], cm);
    assert [app, agent] == [app] + [agent];
    assert [app][1..] == [] && MatchedAll([app], cm) == [];
    assert cm["names"] in MatchedAll([app, agent], cm);
    assert AgentIndex([app, agent]) == 1;
    assert WithoutAgent([app, agent]) == [app];
  }

  lemma ReadsNames(c: Container, cm: ConfigMaps)
    requires c.envFrom == ["names"] && "names" in cm
    ensures MatchedAll([c], cm) == [cm["names"]]
  {
    assert c.envFrom[1..] == [] && [c][1..] == [];
    assert Matched(c.envFrom, cm) == [cm["names"]];
    assert MatchedAll([c], cm) == Matched(c.envFrom, cm) + [];
  }
}
