/** Laws of the sidecar: injection is idempotent, and cleaning undoes it. */
module SidecarLaws {
  import opened Text
  import opened CommonSpec
  import opened Sidecar
  import Names
  import Tags

  // --- Idempotence -------------------------------------------------------------------------

  /** No Kubernetes object or container name contains a comma. */
  ghost predicate NamesWithoutComma(d: Deployment) {
    ',' !in d.name && ',' !in d.namespace && forall c :: c in d.containers ==> ',' !in c.name
  }

  const TAG_NAMES := {"cluster", "deployment.name", "pod.namespace", "pod.name", "host.ip", "container.name"}

  lemma TagNamesPlain(k: string)
    requires k in TAG_NAMES
    ensures '=' !in k && ',' !in k
  {
  }

  lemma DefaultTagsPrintable(name: string, namespace: string, container: string)
    requires ',' !in name && ',' !in namespace && ',' !in container
    ensures Tags.Printable(DefaultTags(name, namespace, container))
    ensures DefaultTags(name, namespace, container) != map[]
  {
    var t := DefaultTags(name, namespace, container);
    assert "cluster" in t;
    forall k | k in t ensures '=' !in k && ',' !in k && ',' !in t[k] {
      assert k in TAG_NAMES;
      TagNamesPlain(k);
    }
  }

  lemma AgentTagsPrintable(d: Deployment)
    requires NamesWithoutComma(d) && AgentTags(d).Some?
    ensures Tags.Printable(AgentTags(d).value) && AgentTags(d).value != map[]
  {
    var idx := AgentIndex(d.containers);
    var cn := ContainerName(d.containers, idx);
    assert ',' !in cn by {
      if cn != "" {
        var i := if idx == -1 then 0 else 1 - idx;
        assert d.containers[i] in d.containers;
      }
    }
    DefaultTagsPrintable(d.name, d.namespace, cn);
    if idx != -1 {
      Tags.ParsedPrintable(d.containers[idx].args);
      var k :| k in DefaultTagsOf(d);
      assert k in AgentTags(d).value;
    }
  }

  /** The tags flag is the only one of its kind in the sorted arguments. */
  lemma FindsTagsFlag(base: seq<string>, tags: Tags.TagMap)
    requires FindItem(Tags.TAGS_FLAG, base) == ""
    ensures FindItem(Tags.TAGS_FLAG, AgentArgs(base, tags)) == Tags.TAGS_FLAG + Tags.Printed(tags)
  {
    var flag := Tags.TAGS_FLAG + Tags.Printed(tags);
    var args := base + [flag];
    SortCorrect(args);
    assert flag in multiset(Sort(args));
    forall b | b in Sort(args) && Tags.TAGS_FLAG <= b ensures b == flag {
      assert b in multiset(args);
      if b in base {
        FindItemFound(Tags.TAGS_FLAG, base);
        assert false;
      }
    }
    FindItemUnique(Tags.TAGS_FLAG, Sort(args), flag);
  }

  /** An injected agent's tags parse back to the tags it was printed from. */
  lemma TagsSurvive(base: seq<string>, tags: Tags.TagMap)
    requires FindItem(Tags.TAGS_FLAG, base) == "" && tags != map[] && Tags.Printable(tags)
    ensures Tags.Parsed(AgentArgs(base, tags)) == Some(tags)
  {
    FindsTagsFlag(base, tags);
    Tags.TagsRoundTrip(tags, AgentArgs(base, tags));
  }

  lemma DedupSuffix<T>(a: seq<T>, b: seq<T>, name: T -> string)
    ensures Dedup(Dedup(a + b, {}, name) + b, {}, name) == Dedup(a + b, {}, name)
  {
    var d := Dedup(a + b, {}, name);
    var names := NamesOf(d, name);
    DedupConcat(d, b, {}, name);
    DedupAbsorbs(a + b, [], name);
    DedupNames(a + b, {}, name);
    assert {} + names == names;
    forall x | x in b ensures name(x) in names { assert x in a + b; assert name(x) in NamesOf(a + b, name); }
    DedupSeen(b, names, name);
  }

  /** The position of the agent after an injection. */
  function Slot(cs: seq<Container>): nat {
    var i := AgentIndex(cs);
    if i == -1 then |cs| else i
  }

  ghost predicate SameNames(a: seq<Container>, b: seq<Container>) {
    |a| == |b| && forall i :: 0 <= i < |a| ==> a[i].name == b[i].name
  }

  lemma SameNamesSameIndex(a: seq<Container>, b: seq<Container>)
    requires SameNames(a, b)
    ensures AgentIndex(a) == AgentIndex(b) && Slot(a) == Slot(b)
    ensures ContainerName(a, AgentIndex(a)) == ContainerName(b, AgentIndex(b))
  {
  }

  lemma PlaceShape(cs: seq<Container>, agent: Container)
    requires agent.name == AGENT
    ensures var r := Place(cs, agent);
            && Slot(cs) < |r| && AgentIndex(r) == Slot(cs) && r[Slot(cs)] == agent
            && (forall i :: 0 <= i < |r| && i != Slot(cs) ==> i < |cs| && r[i] == cs[i])
            && |r| == (if AgentIndex(cs) == -1 then |cs| + 1 else |cs|)
            && ContainerName(r, Slot(cs)) == ContainerName(cs, AgentIndex(cs))
  {
    AgentIndexIs(Place(cs, agent), Slot(cs));
  }

  /** Re-injection: same slot, same container name, untouched neighbours. */
  lemma PlaceAgain(cs: seq<Container>, agent: Container, cs1: seq<Container>)
    requires agent.name == AGENT
    requires |cs1| == |Place(cs, agent)| && SameNames(cs1, Place(cs, agent))
    requires Slot(cs) < |cs1|
    requires forall i :: 0 <= i < |cs1| && i != Slot(cs) ==> cs1[i] == Place(cs, agent)[i]
    ensures Place(cs1, agent) == Place(cs, agent)
  {
    PlaceShape(cs, agent);
    SameNamesSameIndex(cs1, Place(cs, agent));
    PlaceShape(cs1, agent);
  }

  /** The agent's own entry plays no part in deciding whether its admin port is taken. */
  lemma PortAgain(port: int, cs: seq<Container>, agent: Container, cs1: seq<Container>)
    requires agent.name == AGENT
    requires |cs1| == |Place(cs, agent)| && SameNames(cs1, Place(cs, agent))
    requires forall i :: 0 <= i < |cs1| && i != Slot(cs) ==> cs1[i] == Place(cs, agent)[i]
    ensures PortAvailable(port, cs1) == PortAvailable(port, cs)
  {
    PlaceShape(cs, agent);
    forall c: Container | c.name != AGENT ensures c in cs <==> c in cs1 {
      if c in cs {
        var i :| 0 <= i < |cs| && cs[i] == c;
        assert cs1[i] == c;
      }
      if c in cs1 {
        var i :| 0 <= i < |cs1| && cs1[i] == c;
        assert cs[i] == c;
      }
    }
  }

  /** Decorating what was decorated before leaves all containers but the agent alone. */
  lemma DecoratedAgain(data: ConfigData, d: Deployment, agent: Container, d1: Deployment)
    requires agent.name == AGENT
    requires d1.templateLabels == d.templateLabels && d1.namespace == d.namespace
    requires d1.containers == Place(DecoratedContainers(d, data), agent)
    ensures var cs, cs1 := DecoratedContainers(d, data), DecoratedContainers(d1, data);
            && SameNames(cs1, d1.containers)
            && forall i :: 0 <= i < |cs1| && i != Slot(cs) ==> cs1[i] == d1.containers[i]
  {
    var cs := DecoratedContainers(d, data);
    PlaceShape(cs, agent);
    var app := AppName(d.templateLabels, d.namespace);
    if app.Some? {
      forall i | 0 <= i < |d1.containers| && i != Slot(cs)
        ensures DecoratedContainers(d1, data)[i] == d1.containers[i]
      {
        DecoratedTwice(d.containers[i], app.value, data);
      }
    }
  }

  /** An agent that carries the tags of `d` gives them back unchanged. */
  lemma TagsCarried(d: Deployment, d1: Deployment)
    requires AgentTags(d).Some? && DefaultTagsOf(d1) == DefaultTagsOf(d)
    requires AgentIndex(d1.containers) >= 0
    requires Tags.Parsed(d1.containers[AgentIndex(d1.containers)].args) == AgentTags(d)
    ensures AgentTags(d1) == AgentTags(d)
  {
    var tags := AgentTags(d).value;
    assert tags + DefaultTagsOf(d) == tags;
  }

  lemma SameDefaultTags(data: ConfigData, d: Deployment, agent: Container, d1: Deployment)
    requires agent.name == AGENT
    requires d1.name == d.name && d1.namespace == d.namespace
    requires d1.containers == Place(DecoratedContainers(d, data), agent)
    ensures DefaultTagsOf(d1) == DefaultTagsOf(d)
    ensures AgentIndex(d1.containers) >= 0 && d1.containers[AgentIndex(d1.containers)] == agent
  {
    var cs := DecoratedContainers(d, data);
    PlaceShape(cs, agent);
    SameNamesSameIndex(d.containers, cs);
  }

  lemma TagsAgain(a: Agent, data: ConfigData, d: Deployment)
    requires a.definition.name == AGENT && a.mark == a.instance
    requires Completes(a, d) && !AssignedElsewhere(a, d) && NamesWithoutComma(d)
    ensures var d1 := InjectedBy(a, data, d);
            Completes(a, d1) && !AssignedElsewhere(a, d1) && TagsFor(a, d1) == TagsFor(a, d)
  {
    if TagsNeeded(a) {
      var d1 := InjectedBy(a, data, d);
      SameDefaultTags(data, d, AgentFor(a, data, d), d1);
      AgentTagsPrintable(d);
      TagsSurvive(a.base, TagsFor(a, d));
      TagsCarried(d, d1);
    }
  }

  lemma ContainersAgain(a: Agent, data: ConfigData, d: Deployment)
    requires a.definition.name == AGENT && a.mark == a.instance
    requires Completes(a, d) && !AssignedElsewhere(a, d) && NamesWithoutComma(d)
    ensures var d1 := InjectedBy(a, data, d);
            Completes(a, d1) && !AssignedElsewhere(a, d1) &&
            Place(DecoratedContainers(d1, data), AgentFor(a, data, d1)) == d1.containers
  {
    var d1 := InjectedBy(a, data, d);
    var agent := AgentFor(a, data, d);
    var cs, cs1 := DecoratedContainers(d, data), DecoratedContainers(d1, data);
    TagsAgain(a, data, d);
    DecoratedAgain(data, d, agent, d1);
    PlaceShape(cs, agent);
    PortAgain(a.adminPort, cs, agent, cs1);
    assert AgentFor(a, data, d1) == agent;
    PlaceAgain(cs, agent, cs1);
  }

  lemma AnnotatedTwice(m: map<string, string>)
    ensures Annotated(Annotated(m)) == Annotated(m)
  {
  }

  /** Injecting the same agent again changes nothing. */
  lemma InjectedTwice(a: Agent, data: ConfigData, d: Deployment)
    requires a.definition.name == AGENT && Completes(a, d) && NamesWithoutComma(d)
    ensures Completes(a, InjectedBy(a, data, d))
    ensures InjectedBy(a, data, InjectedBy(a, data, d)) == InjectedBy(a, data, d)
  {
    if !AssignedElsewhere(a, d) && a.mark == a.instance {
      var d1 := InjectedBy(a, data, d);
      ContainersAgain(a, data, d);
      DedupSuffix(d.volumes, a.volumes, VolumeName);
      DedupSuffix(d.pullSecrets, a.pullSecrets, SecretName);
      AnnotatedTwice(d.annotations.value);
      assert d1.labels[LABEL := a.mark] == d1.labels;
    }
  }

  // --- Clean undoes inject -----------------------------------------------------------------

  lemma {:induction false} WithoutConcat(a: seq<Volume>, b: seq<Volume>, names: set<string>)
    ensures Without(a + b, names) == Without(a, names) + Without(b, names)
  {
    if a == [] {
      assert a + b == b;
    } else {
      assert (a + b)[1..] == a[1..] + b;
      WithoutConcat(a[1..], b, names);
    }
  }

  lemma {:induction false} WithoutFacts(vs: seq<Volume>, names: set<string>)
    ensures |Without(vs, names)| <= |vs|
    ensures forall v :: v in Without(vs, names) <==> v in vs && v.name !in names
    ensures |Without(vs, names)| == |vs| ==> Without(vs, names) == vs
    ensures (forall v :: v in vs ==> v.name !in names) <==> Without(vs, names) == vs
  {
    if vs != [] {
      WithoutFacts(vs[1..], names);
      assert vs == [vs[0]] + vs[1..];
      if forall v :: v in vs ==> v.name !in names {
        assert vs[0] in vs;
        assert forall v :: v in vs[1..] ==> v in vs;
      }
    }
  }

  lemma {:induction false} DedupLength<T>(xs: seq<T>, seen: set<string>, name: T -> string)
    ensures |Dedup(xs, seen, name)| <= |xs|
    ensures |Dedup(xs, seen, name)| == |xs| ==> Dedup(xs, seen, name) == xs
  {
    if xs != [] {
      DedupLength(xs[1..], if name(xs[0]) in seen then seen else seen + {name(xs[0])}, name);
      assert xs == [xs[0]] + xs[1..];
    }
  }

  /** The volumes the user had: named apart from each other and from the managed ones. */
  ghost predicate OwnVolumes(vs: seq<Volume>, managed: set<string>) {
    Dedup(vs, {}, VolumeName) == vs && forall v :: v in vs ==> v.name !in managed
  }

  /**
   Cleaning after adding volumes gives the original list back exactly when the original names
   were distinct and unmanaged, and every added name was there already or is a managed one.
   */
  lemma VolumesRestoredIff(vs: seq<Volume>, added: seq<Volume>, managed: set<string>)
    ensures Without(Dedup(vs + added, {}, VolumeName), managed) == vs <==>
              OwnVolumes(vs, managed) && forall v :: v in added ==>
                  v.name in NamesOf(vs, VolumeName) || v.name in managed
  {
    var names := NamesOf(vs, VolumeName);
    var x, y := Without(Dedup(vs, {}, VolumeName), managed), Without(Dedup(added, names, VolumeName), managed);
    DedupConcat(vs, added, {}, VolumeName);
    assert {} + names == names;
    WithoutConcat(Dedup(vs, {}, VolumeName), Dedup(added, names, VolumeName), managed);
    NewNames(added, names, managed);
    OwnVolumesIff(vs, managed);
    assert Without(Dedup(vs + added, {}, VolumeName), managed) == x + y;
    if x + y == vs {
      DedupNames(added, names, VolumeName);
      WithoutFacts(Dedup(added, names, VolumeName), managed);
      forall v | v in y ensures VolumeName(v) !in names {
        assert VolumeName(v) in NamesOf(Dedup(added, names, VolumeName), VolumeName);
      }
      if y != [] {
        SuffixIsOwn(vs, x, y);
        assert false;
      }
      assert x == x + y;
    } else {
      assert y == [] ==> x + y == x;
    }
  }

  lemma OwnVolumesIff(vs: seq<Volume>, managed: set<string>)
    ensures Without(Dedup(vs, {}, VolumeName), managed) == vs <==> OwnVolumes(vs, managed)
  {
    var x := Dedup(vs, {}, VolumeName);
    WithoutFacts(x, managed);
    DedupLength(vs, {}, VolumeName);
  }

  lemma SuffixIsOwn(vs: seq<Volume>, x: seq<Volume>, y: seq<Volume>)
    requires x + y == vs && y != []
    ensures y[0] in y && VolumeName(y[0]) in NamesOf(vs, VolumeName)
  {
    assert vs[|x|] == y[0];
  }

  lemma NewNames(added: seq<Volume>, names: set<string>, managed: set<string>)
    ensures Without(Dedup(added, names, VolumeName), managed) == [] <==>
              forall v :: v in added ==> v.name in names || v.name in managed
  {
    var y := Dedup(added, names, VolumeName);
    DedupNames(added, names, VolumeName);
    WithoutFacts(y, managed);
    if Without(y, managed) == [] {
      forall v | v in added ensures v.name in names || v.name in managed {
        if v.name !in names {
          assert VolumeName(v) in NamesOf(y, VolumeName);
          var w :| w in y && VolumeName(w) == VolumeName(v);
          assert w !in Without(y, managed);
        }
      }
    } else {
      var w := Without(y, managed)[0];
      assert w in Without(y, managed);
      assert VolumeName(w) in NamesOf(added, VolumeName) - names;
      var v :| v in added && VolumeName(v) == VolumeName(w);
    }
  }

  /**
   Cleaning an injected deployment, by the instance its label names, takes out the agent and
   the label again: what remains of the injection is the variables decorate appended, the
   scrape annotations, the pull secrets and the volumes VolumesRestoredIff speaks of.
   */
  lemma CleanUndoesInject(a: Agent, openShift: bool, data: ConfigData, d: Deployment)
    requires a.definition.name == AGENT
    requires d.annotations.Some? && LABEL !in d.labels && AgentIndex(d.containers) == -1
    ensures Completes(a, d)
    ensures var d1 := InjectedBy(a, data, d);
            var d2 := Cleaned(d1.labels[LABEL], openShift, d1);
            && d2 == d.(containers := DecoratedContainers(d, data),
                        annotations := Some(Annotated(d.annotations.value)),
                        pullSecrets := Dedup(d.pullSecrets + a.pullSecrets, {}, SecretName),
                        volumes := d2.volumes)
            && (d2.volumes == d.volumes <==>
                  var managed := ManagedVolumes(a.mark, openShift);
                  OwnVolumes(d.volumes, managed) &&
                  forall v :: v in a.volumes ==> v.name in NamesOf(d.volumes, VolumeName) || v.name in managed)
  {
    VolumesRestoredIff(d.volumes, a.volumes, ManagedVolumes(a.mark, openShift));
    DecoratedOnly(a, openShift, data, d);
  }

  lemma DecoratedOnly(a: Agent, openShift: bool, data: ConfigData, d: Deployment)
    requires a.definition.name == AGENT
    requires d.annotations.Some? && LABEL !in d.labels && AgentIndex(d.containers) == -1
    ensures Completes(a, d)
    ensures var d1 := InjectedBy(a, data, d);
            LABEL in d1.labels && d1.labels[LABEL] == a.mark &&
            Cleaned(a.mark, openShift, d1) ==
              d.(containers := DecoratedContainers(d, data), annotations := Some(Annotated(d.annotations.value)),
                 pullSecrets := Dedup(d.pullSecrets + a.pullSecrets, {}, SecretName),
                 volumes := Without(Dedup(d.volumes + a.volumes, {}, VolumeName), ManagedVolumes(a.mark, openShift)))
  {
    var cs := DecoratedContainers(d, data);
    SameNamesSameIndex(d.containers, cs);
    PlacedAndTakenOut(cs, AgentFor(a, data, d));
    assert d.labels[LABEL := a.mark] - {LABEL} == d.labels;
  }

  lemma PlacedAndTakenOut(cs: seq<Container>, agent: Container)
    requires agent.name == AGENT && AgentIndex(cs) == -1
    ensures WithoutAgent(Place(cs, agent)) == cs
  {
    PlaceShape(cs, agent);
  }

  /** With no volumes of its own, an instance whose name is its label form leaves none behind. */
  lemma CleanRestoresVolumes(j: Instance, env: Platform, data: ConfigData, d: Deployment)
    requires d.annotations.Some? && LABEL !in d.labels && AgentIndex(d.containers) == -1
    requires Names.LabelForm(j.name) == j.name && j.agentSpec.volumes == []
    requires OwnVolumes(d.volumes, ManagedVolumes(j.name, env.openShift))
    ensures var a := AgentOf(j, env);
            Completes(a, d) &&
            var d1 := InjectedBy(a, data, d); Cleaned(d1.labels[LABEL], env.openShift, d1).volumes == d.volumes
  {
    var a := AgentOf(j, env);
    CleanUndoesInject(a, env.openShift, data, d);
    forall v | v in a.volumes ensures v.name in ManagedVolumes(j.name, env.openShift) {
      AgentVolumeNames(j, env, v);
    }
  }

  lemma {:induction false} DedupMember<T>(xs: seq<T>, seen: set<string>, name: T -> string, v: T)
    requires v in Dedup(xs, seen, name)
    ensures v in xs
  {
    if name(xs[0]) in seen {
      DedupMember(xs[1..], seen, name, v);
    } else if v != xs[0] {
      DedupMember(xs[1..], seen + {name(xs[0])}, name, v);
    }
  }

  lemma AgentVolumeNames(j: Instance, env: Platform, v: Volume)
    requires v in AgentVolumes(j, env).volumes && j.agentSpec.volumes == []
    ensures v.name in ManagedVolumes(j.name, env.openShift)
  {
    var s1 := if !env.openShift || MountsBelow(j.commonSpec, CA_BUNDLE_PATH) then j.agentSpec
              else WithVolume(j.agentSpec, TrustedCAName(j.name), CA_BUNDLE_PATH);
    var service := Volume(ServiceCAName(j.name), "configmap " + ServiceCAName(j.name));
    var trusted := Volume(TrustedCAName(j.name), "configmap " + TrustedCAName(j.name));
    if v !in s1.volumes {
      DedupMember(s1.volumes + [service], {}, VolumeName, v);
    } else {
      DedupMember([] + [trusted], {}, VolumeName, v);
    }
  }
}
