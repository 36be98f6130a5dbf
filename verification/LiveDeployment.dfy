/**
 The deployment object that the injector changes in place (pkg/inject/sidecar.go). Each
 method is proved against the value-level function of module Sidecar.
 */
module LiveDeployment {
  import opened Text
  import opened CommonSpec
  import opened Sidecar
  import SidecarLaws
  import Tags

  class LiveDeployment {
    const namespace: string
    const name: string
    const templateLabels: map<string, string>
    var labels: map<string, string>
    var annotations: Option<map<string, string>>
    var containers: seq<Container>
    var volumes: seq<Volume>
    var pullSecrets: seq<LocalObjectReference>

    function Value(): Deployment
      reads this
    {
      Deployment(namespace, name, labels, annotations, templateLabels, containers, volumes, pullSecrets)
    }

    constructor (d: Deployment)
      ensures Value() == d
    {
      namespace, name, templateLabels := d.namespace, d.name, d.templateLabels;
      labels, annotations, containers := d.labels, d.annotations, d.containers;
      volumes, pullSecrets := d.volumes, d.pullSecrets;
    }

    /** The environment part of `decorate`. */
    method DecorateContainers(data: ConfigData)
      modifies this`containers
      ensures containers == DecoratedContainers(old(Value()), data)
    {
      var app := AppName(templateLabels, namespace);
      if app.Some? {
        for i := 0 to |containers|
          invariant |containers| == |old(containers)|
          invariant forall j :: 0 <= j < i ==> containers[j] == DecoratedContainer(old(containers)[j], app.value, data)
          invariant forall j :: i <= j < |containers| ==> containers[j] == old(containers)[j]
        {
          var env := containers[i].env;
          if !HasEnv(SERVICE_NAME, env) && !HasKey(SERVICE_NAME, data) {
            env := env + [EnvVar(SERVICE_NAME, app.value)];
          }
          if !HasEnv(PROPAGATION, env) && !HasKey(PROPAGATION, data) {
            env := env + [EnvVar(PROPAGATION, "jaeger,b3,w3c")];
          }
          containers := containers[i := containers[i].(env := env)];
        }
      }
    }

    /** `decorate`; false is the panic on a nil annotation map. */
    method Decorate(data: ConfigData) returns (ok: bool)
      modifies this`containers, this`annotations
      ensures ok <==> old(annotations).Some?
      ensures ok ==> Value() == old(Value()).(containers := DecoratedContainers(old(Value()), data),
                                              annotations := Some(Annotated(old(annotations).value)))
    {
      DecorateContainers(data);
      if annotations.None? { return false; }
      var m := AddMissing(annotations.value, PROMETHEUS);
      annotations := Some(m);
      ok := true;
    }

    /** `container`: adds the agent's volumes and pull secrets, returns its definition. */
    method BuildAgent(a: Agent, idx: int) returns (agent: Option<Container>)
      requires idx == AgentIndex(containers)
      modifies this`volumes, this`pullSecrets
      ensures agent.None? <==> TagsNeeded(a) && AgentTags(old(Value())).None?
      ensures agent.Some? ==>
                && agent.value == AgentContainer(a, if TagsNeeded(a) then AgentTags(old(Value())).value else map[],
                                                 PortAvailable(a.adminPort, containers))
                && volumes == Dedup(old(volumes) + a.volumes, {}, VolumeName)
                && pullSecrets == Dedup(old(pullSecrets) + a.pullSecrets, {}, SecretName)
    {
      var args := a.base;
      if FindItem(Tags.TAGS_FLAG, args) == "" {
        var tags := DefaultTags(name, namespace, ContainerName(containers, idx));
        if idx > -1 {
          var existing := Tags.ParseAgentTags(containers[idx].args);
          if existing.None? { return None; }
          tags := existing.value + tags;
        }
        var printed := Tags.JoinTags(tags);
        args := args + [Tags.TAGS_FLAG + printed];
      }
      args := Sort(args);
      pullSecrets := RemoveDuplicated(pullSecrets + a.pullSecrets, SecretName);
      volumes := RemoveDuplicated(volumes + a.volumes, VolumeName);
      var probe := PortAvailable(a.adminPort, containers);
      agent := Some(a.definition.(args := args, probe := if probe then Some(a.adminPort) else None));
    }

    /** `Sidecar`; false is a panic on the way. */
    method Sidecar(a: Agent, data: ConfigData) returns (ok: bool)
      requires a.definition.name == AGENT
      modifies this
      ensures ok <==> Completes(a, old(Value()))
      ensures ok ==> Value() == InjectedBy(a, data, old(Value()))
    {
      ghost var d := Value();
      if LABEL in labels && labels[LABEL] != a.instance { return true; }
      ok := Decorate(data);
      if !ok { return; }
      ghost var dd := Value();
      SameTags(d, dd);
      var idx := AgentIndex(containers);
      var agent := BuildAgent(a, idx);
      if agent.None? { return false; }
      containers := if idx >= 0 then containers[idx := agent.value] else containers + [agent.value];
      labels := labels[LABEL := a.mark];
    }

    method RemoveAgent()
      modifies this`containers
      ensures containers == WithoutAgent(old(containers))
    {
      var c := AgentIndex(containers);
      if c >= 0 { containers := containers[..c] + containers[c + 1..]; }
    }

    method CleanSidecar(instance: string, openShift: bool)
      modifies this
      ensures Value() == Cleaned(instance, openShift, old(Value()))
    {
      labels := labels - {LABEL};
      RemoveAgent();
      var names := ManagedVolumes(instance, openShift);
      if openShift {
        RemoveVolumes(names);
      } else {
        WithoutNone(volumes);
      }
    }

    /** The in-place deletion loop, stepping back one index after each removal. */
    method RemoveVolumes(names: set<string>)
      modifies this`volumes
      ensures volumes == Without(old(volumes), names)
    {
      var v := 0;
      while v < |volumes|
        invariant 0 <= v <= |volumes|
        invariant Without(volumes, names) == Without(old(volumes), names)
        invariant forall i :: 0 <= i < v ==> volumes[i].name !in names
        decreases |volumes| - v
      {
        if volumes[v].name in names {
          DropOne(volumes, v, names);
          volumes := volumes[..v] + volumes[v + 1..];
          v := v - 1;
        }
        v := v + 1;
      }
      SidecarLaws.WithoutFacts(volumes, names);
      assert forall x :: x in volumes ==> x.name !in names;
    }
  }

  lemma WithoutNone(vs: seq<Volume>)
    ensures Without(vs, {}) == vs
  {
    SidecarLaws.WithoutFacts(vs, {});
  }

  lemma DropOne(vs: seq<Volume>, v: nat, names: set<string>)
    requires v < |vs| && vs[v].name in names
    ensures Without(vs[..v] + vs[v + 1..], names) == Without(vs, names)
  {
    assert vs == vs[..v] + vs[v..] && vs[v..][1..] == vs[v + 1..];
    SidecarLaws.WithoutConcat(vs[..v], vs[v..], names);
    SidecarLaws.WithoutConcat(vs[..v], vs[v + 1..], names);
  }

  /** Decorating changes neither the agent's place nor its tags. */
  lemma SameTags(d: Deployment, dd: Deployment)
    requires dd.name == d.name && dd.namespace == d.namespace && |dd.containers| == |d.containers|
    requires forall i :: 0 <= i < |d.containers| ==> dd.containers[i] == d.containers[i].(env := dd.containers[i].env)
    ensures AgentTags(dd) == AgentTags(d)
  {
    SidecarLaws.SameNamesSameIndex(d.containers, dd.containers);
  }
}
