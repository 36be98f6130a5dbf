/**
 Whether what a component deploys carries the labels by which the operator finds its objects
 again (pkg/util/util.go Labels, pkg/deployment, pkg/strategy/controller.go).
 */
module SelectorLabels {
  import opened Text
  import opened CommonSpec
  import opened Diff
  import opened Inventories
  import opened Convergence
  import opened DeploymentLaws
  import Names
  import Strategy

  const INSTANCE := Strategy.INSTANCE_LABEL
  const MANAGED_BY := Strategy.MANAGED_BY_LABEL

  /** The selector of every List of an instance's objects. */
  function InstanceSelector(name: string): Labels { map[INSTANCE := name, MANAGED_BY := "jaeger-operator"] }

  /** util.Labels */
  function StandardLabels(name: string, component: string, instance: string): Labels {
    map["app" := "jaeger", "app.kubernetes.io/name" := Names.LabelForm(name), INSTANCE := Names.LabelForm(instance),
        "app.kubernetes.io/component" := Names.LabelForm(component), "app.kubernetes.io/part-of" := "jaeger",
        MANAGED_BY := "jaeger-operator"]
  }

  /** The labels of a component's deployment: its own, the common ones, then the operator's. */
  lemma ComponentLabels(component: Spec, common: Spec, base: Spec)
    ensures Merged([component, common, base]).labels == base.labels + common.labels + component.labels
  {
    assert [component, common, base][1..] == [common, base];
    assert [common, base][1..] == [base];
    assert [base][1..] == [];
    assert map[] + base.labels == base.labels;
    assert GatherAll([base]).labels == base.labels;
    assert GatherAll([common, base]).labels == base.labels + common.labels;
  }

  /**
   Once the selector's labels are stripped from the common block, the deployment is found
   exactly when the component's own labels agree with the selector, and where it has none the
   operator's do.
   */
  lemma FoundIff(selector: Labels, component: Spec, common: Spec, base: Spec)
    requires selector.Keys !! common.labels.Keys
    ensures Matches(selector, Merged([component, common, base]).labels) <==>
            forall k :: k in selector ==>
              if k in component.labels then component.labels[k] == selector[k]
              else k in base.labels && base.labels[k] == selector[k]
  {
    ComponentLabels(component, common, base);
    var labels := Merged([component, common, base]).labels;
    assert forall k :: k in selector ==> k !in common.labels;
    assert forall k :: k in selector ==> (k in labels <==> k in component.labels || k in base.labels);
    assert forall k :: k in selector && k in labels ==>
        labels[k] == if k in component.labels then component.labels[k] else base.labels[k];
  }

  /** A component without labels of its own is found exactly when the instance name survives as a label value. */
  lemma PlainComponentFoundIff(name: string, full: string, kind: string, component: Spec, common: Spec)
    requires InstanceSelector(name).Keys !! common.labels.Keys && InstanceSelector(name).Keys !! component.labels.Keys
    ensures var base := EMPTY.(labels := StandardLabels(full, kind, name));
            Matches(InstanceSelector(name), Merged([component, common, base]).labels)
            <==> |name| <= 63 && (name == "" || Names.AlnumEnds(name))
  {
    var base := EMPTY.(labels := StandardLabels(full, kind, name));
    FoundIff(InstanceSelector(name), component, common, base);
    Names.LabelFormFixed(name);
    assert INSTANCE in InstanceSelector(name) && InstanceSelector(name)[INSTANCE] == name;
  }

  /**
   The query deployment of a normalised instance, whose own and common labels are stripped of
   the reserved ones, is found exactly when the instance name survives as a label value.
   */
  lemma QueryFoundIff(env: Strategy.Env, j: Strategy.Instance, full: string, component: Spec)
    requires Strategy.Normal(env, j) && component.labels == j.queryLabels
    ensures var base := EMPTY.(labels := StandardLabels(full, "query", j.name));
            Matches(InstanceSelector(j.name), Merged([component, j.common, base]).labels)
            <==> |j.name| <= 63 && (j.name == "" || Names.AlnumEnds(j.name))
  {
    StrippedHasNoSelector(j.name, j.common.labels);
    StrippedHasNoSelector(j.name, j.queryLabels);
    PlainComponentFoundIff(j.name, full, "query", component, j.common);
  }

  lemma StrippedHasNoSelector(name: string, labels: Labels)
    requires labels == Strategy.Stripped(labels)
    ensures InstanceSelector(name).Keys !! labels.Keys
  {
    assert INSTANCE !in Strategy.Stripped(labels) && MANAGED_BY !in Strategy.Stripped(labels);
  }

  /**
   A desired deployment that is not found again is created once and blocks every later pass for
   it: however many passes come in between, each for any desired deployments and cut short
   anywhere, the pass plans to create it anew and is refused.
   */
  lemma UnfoundBlocks(selected: Deployment -> bool, store: Store<Deployment>, want: map<string, Deployment>, k: string,
      inv: Inventory<Deployment>, r: Store<Deployment>, passes: seq<Pass<Deployment>>, final: Store<Deployment>,
      again: map<string, Deployment>, next: Inventory<Deployment>)
    requires Keyed(DeploymentKey, store) && Keyed(DeploymentKey, want) && Visible(selected, store, want)
    requires k in want && !selected(want[k]) && k !in store && k in again
    requires IsInventory(DEPLOYMENTS, Selected(selected, store), want, inv)
               && r == Target(DEPLOYMENTS, selected, store, want)
    requires AnyPasses(DEPLOYMENTS, selected, r, passes, final)
               && IsInventory(DEPLOYMENTS, Selected(selected, final), again, next)
    ensures Exec(DeploymentKey, store, Writes(inv)) == Some(r)
    ensures Exec(DeploymentKey, final, Writes(next)) == None
  {
    PassReachesTarget(DEPLOYMENTS, selected, store, want, inv);
    CreatedUnfound(selected, store, want, k);
    UnlistedStay(DEPLOYMENTS, selected, r, passes, final);
    Refused(selected, final, again, k, next);
  }

  lemma CreatedUnfound(selected: Deployment -> bool, store: Store<Deployment>, want: map<string, Deployment>, k: string)
    requires Keyed(DeploymentKey, store) && Keyed(DeploymentKey, want) && k in want && k !in store
    ensures var r := Target(DEPLOYMENTS, selected, store, want); Keyed(DeploymentKey, r) && k in r && r[k] == want[k]
  {
  }

  lemma Refused(selected: Deployment -> bool, store: Store<Deployment>, want: map<string, Deployment>, k: string,
      inv: Inventory<Deployment>)
    requires k in want && k in store && !selected(store[k])
               && IsInventory(DEPLOYMENTS, Selected(selected, store), want, inv)
    ensures Exec(DeploymentKey, store, Writes(inv)) == None
  {
    PassReachesTarget(DEPLOYMENTS, selected, store, want, inv);
  }
}
