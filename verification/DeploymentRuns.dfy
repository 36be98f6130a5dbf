/**
 Reconciliations interleaved with every other writer of the cluster: the operator lists,
 then issues its updates one by one, and the API server accepts an update only if it is based
 on the stored version of the object.
 */
module DeploymentRuns {
  import opened Text
  import opened Diff
  import opened Inventories
  import opened Convergence
  import opened DeploymentLaws

  datatype Versioned = Versioned(version: nat, d: Deployment)

  /**
   `store` and `clock` are the API server's, the rest is what the operator remembers of its
   List: the objects it saw, what it desires and the writes it has not issued yet.
   */
  datatype State = State(
    store: map<string, Versioned>, clock: nat,
    seen: map<string, Versioned>, want: map<string, Deployment>, pending: seq<Write<Deployment>>)

  datatype Step =
    | List(want: map<string, Deployment>, inv: Inventory<Deployment>)
    | Issue
    | Abandon
    | Foreign(key: string, obj: Option<Deployment>)

  function Objects(store: map<string, Versioned>): Store<Deployment> { map k | k in store :: store[k].d }

  /** What the operator sees of the cluster when it lists. */
  function Shown(selected: Deployment -> bool, store: map<string, Versioned>): map<string, Versioned> {
    map k | k in store && selected(store[k].d) :: store[k]
  }

  ghost predicate Enabled(selected: Deployment -> bool, s: State, step: Step) {
    match step
    case List(want, inv) =>
      Keyed(DeploymentKey, want) && IsInventory(DEPLOYMENTS, Objects(Shown(selected, s.store)), want, inv)
    case Issue => s.pending != []
    case Abandon => true
    case Foreign(key, obj) => obj.Some? ==> DeploymentKey(obj.value) == key
  }

  function Put(s: State, k: string, d: Deployment): State {
    s.(store := s.store[k := Versioned(s.clock, d)], clock := s.clock + 1)
  }

  /** The API server takes the write; an update must be based on the stored version. */
  predicate Accepted(s: State, w: Write<Deployment>) {
    var k := DeploymentKey(w.obj);
    match w
    case Create(_) => k !in s.store
    case Update(_) => k in s.store && k in s.seen && s.store[k].version == s.seen[k].version
    case Delete(_) => k in s.store
  }

  function After(selected: Deployment -> bool, s: State, step: Step): State
    requires step.Issue? ==> s.pending != []
  {
    match step
    case List(want, inv) => s.(seen := Shown(selected, s.store), want := want, pending := Writes(inv))
    case Issue =>
      var w := s.pending[0];
      if !Accepted(s, w) then s.(pending := [])
      else
        var t := if w.Delete? then s.(store := s.store - {DeploymentKey(w.obj)})
            else Put(s, DeploymentKey(w.obj), w.obj);
        t.(pending := s.pending[1..])
    case Abandon => s.(pending := [])
    case Foreign(k, obj) => if obj.Some? then Put(s, k, obj.value) else s.(store := s.store - {k})
  }

  // --- What holds in every reachable state -------------------------------------------------

  /** A planned update carries what merging the desired object into the listed one gives. */
  ghost predicate Planned(s: State, w: Write<Deployment>) {
    var k := DeploymentKey(w.obj);
    w.Update? ==> k in s.seen && k in s.want && w.obj == MergeDeployment(s.seen[k].d, s.want[k])
  }

  /** A version names one state of one object for ever. */
  ghost predicate Inv(s: State) {
    && (forall k :: k in s.store ==> s.store[k].version < s.clock && DeploymentKey(s.store[k].d) == k)
    && (forall k :: k in s.seen ==> s.seen[k].version < s.clock && DeploymentKey(s.seen[k].d) == k)
    && (forall k :: k in s.seen && k in s.store && s.store[k].version == s.seen[k].version ==> s.store[k] == s.seen[k])
    && (forall i :: 0 <= i < |s.pending| ==> Planned(s, s.pending[i]))
  }

  /** Before its first List the operator remembers nothing, and any cluster will do. */
  lemma StartsInInv(s: State)
    requires s.seen == map[] && s.pending == []
    requires forall k :: k in s.store ==> s.store[k].version < s.clock && DeploymentKey(s.store[k].d) == k
    ensures Inv(s)
  {
  }

  lemma ListKeepsInv(selected: Deployment -> bool, s: State, want: map<string, Deployment>, inv: Inventory<Deployment>)
    requires Inv(s) && Enabled(selected, s, List(want, inv))
    ensures Inv(After(selected, s, List(want, inv)))
  {
    var t := After(selected, s, List(want, inv));
    forall i | 0 <= i < |t.pending| ensures Planned(t, t.pending[i]) {
      WriteAt(inv, i);
      if t.pending[i].Update? {
        var u := t.pending[i].obj;
        assert u in inv.update;
        EnumeratesMembers(DeploymentKey, inv.update, Both(DEPLOYMENTS, Objects(t.seen), want), u);
      }
    }
  }

  /** Other writes leave what the operator remembers alone, and take a new version. */
  lemma PutKeepsInv(s: State, k: string, d: Deployment)
    requires Inv(s) && DeploymentKey(d) == k
    ensures Inv(Put(s, k, d))
  {
    var t := Put(s, k, d);
    assert forall i :: 0 <= i < |t.pending| ==> Planned(s, t.pending[i]) && Planned(t, t.pending[i]);
  }

  lemma DropKeepsInv(s: State, k: string)
    requires Inv(s)
    ensures Inv(s.(store := s.store - {k}))
  {
    var t := s.(store := s.store - {k});
    assert forall i :: 0 <= i < |t.pending| ==> Planned(s, t.pending[i]) && Planned(t, t.pending[i]);
  }

  lemma PendingKeepsInv(s: State, pending: seq<Write<Deployment>>)
    requires Inv(s) && (pending == [] || (s.pending != [] && pending == s.pending[1..]))
    ensures Inv(s.(pending := pending))
  {
    var t := s.(pending := pending);
    forall i | 0 <= i < |pending| ensures Planned(t, pending[i]) { assert Planned(s, s.pending[i + 1]); }
  }

  lemma IssueKeepsInv(selected: Deployment -> bool, s: State)
    requires Inv(s) && s.pending != []
    ensures Inv(After(selected, s, Issue))
  {
    var w := s.pending[0];
    var k := DeploymentKey(w.obj);
    if !Accepted(s, w) {
      PendingKeepsInv(s, []);
    } else if w.Delete? {
      DropKeepsInv(s, k);
      PendingKeepsInv(s.(store := s.store - {k}), s.pending[1..]);
    } else {
      PutKeepsInv(s, k, w.obj);
      PendingKeepsInv(Put(s, k, w.obj), s.pending[1..]);
    }
  }

  lemma StepKeepsInv(selected: Deployment -> bool, s: State, step: Step)
    requires Inv(s) && Enabled(selected, s, step)
    ensures Inv(After(selected, s, step))
  {
    match step
    case List(want, inv) => ListKeepsInv(selected, s, want, inv);
    case Issue => IssueKeepsInv(selected, s);
    case Abandon => PendingKeepsInv(s, []);
    case Foreign(k, obj) => if obj.Some? { PutKeepsInv(s, k, obj.value); } else { DropKeepsInv(s, k); }
  }

  /**
   Every update that the API server accepts is a merge into the object as it is stored at that
   moment, however many others wrote to it since the List.
   */
  lemma AcceptedUpdateMerges(selected: Deployment -> bool, s: State, k: string)
    requires Inv(s) && s.pending != [] && s.pending[0].Update? && Accepted(s, s.pending[0])
               && k == DeploymentKey(s.pending[0].obj)
    ensures k in s.store && k in s.want
    ensures After(selected, s, Issue).store[k].d == MergeDeployment(s.store[k].d, s.want[k])
  {
    assert Planned(s, s.pending[0]);
  }

  /**
   An update based on an outdated List is refused and ends the pass. Accepting it would put
   back the replica count of that List, undoing an autoscaler that wrote in between.
   */
  lemma StaleUpdateRefused(selected: Deployment -> bool, s: State, k: string)
    requires Inv(s) && s.pending != [] && s.pending[0].Update? && k == DeploymentKey(s.pending[0].obj)
    requires k in s.store && k in s.seen && s.store[k] != s.seen[k]
    ensures After(selected, s, Issue) == s.(pending := [])
    ensures k in s.want
              && (s.want[k].spec.replicas.None? ==> s.pending[0].obj.spec.replicas == s.seen[k].d.spec.replicas)
  {
    assert Planned(s, s.pending[0]);
  }

  // --- Runs --------------------------------------------------------------------------------

  /** The states of a run, one more than its steps. */
  ghost predicate Run(selected: Deployment -> bool, states: seq<State>, steps: seq<Step>) {
    && |states| == |steps| + 1
    && forall i :: 0 <= i < |steps| ==>
         Enabled(selected, states[i], steps[i]) && states[i + 1] == After(selected, states[i], steps[i])
  }

  lemma {:induction false} InvThroughout(selected: Deployment -> bool, states: seq<State>, steps: seq<Step>, n: nat)
    requires Run(selected, states, steps) && Inv(states[0]) && n < |states|
    ensures Inv(states[n])
  {
    if n > 0 {
      InvThroughout(selected, states, steps, n - 1);
      StepKeepsInv(selected, states[n - 1], steps[n - 1]);
    }
  }

  /** A step of another writer respects `p` at the key. */
  ghost predicate OtherRespects(p: Deployment -> bool, k: string, s: State, step: Step) {
    step.Foreign? && step.key == k && step.obj.Some? && k in s.store && p(s.store[k].d) ==> p(step.obj.value)
  }

  /** The merges that the operator may make respect it. */
  ghost predicate MergesRespect(p: Deployment -> bool, k: string, s: State) {
    k in s.want ==> forall t :: p(t) ==> p(MergeDeployment(t, s.want[k]))
  }

  ghost predicate Respected(p: Deployment -> bool, k: string, states: seq<State>, steps: seq<Step>)
    requires |states| == |steps| + 1
  {
    && (forall i :: 0 <= i < |steps| ==> OtherRespects(p, k, states[i], steps[i]))
    && (forall i :: 0 <= i < |states| ==> MergesRespect(p, k, states[i]))
  }

  /** The deployment at the key exists and is as `p` says. */
  ghost predicate HoldsAt(p: Deployment -> bool, k: string, s: State) { k in s.store && p(s.store[k].d) }

  lemma StepKeeps(selected: Deployment -> bool, p: Deployment -> bool, k: string, s: State, step: Step)
    requires Enabled(selected, s, step) && Inv(s) && OtherRespects(p, k, s, step) && MergesRespect(p, k, s)
    requires HoldsAt(p, k, s) && k in After(selected, s, step).store
    ensures HoldsAt(p, k, After(selected, s, step))
  {
    if step.Issue? && Accepted(s, s.pending[0]) && DeploymentKey(s.pending[0].obj) == k && s.pending[0].Update? {
      AcceptedUpdateMerges(selected, s, k);
    }
  }

  /** The deployment at the key exists up to the `n`th state. */
  ghost predicate ExistsUpTo(k: string, states: seq<State>, n: nat) {
    n < |states| && forall i :: 0 <= i <= n ==> k in states[i].store
  }

  lemma RunStep(selected: Deployment -> bool, p: Deployment -> bool, k: string, states: seq<State>, steps: seq<Step>,
      n: nat)
    requires Run(selected, states, steps) && Inv(states[0]) && Respected(p, k, states, steps)
    requires n < |steps| && HoldsAt(p, k, states[n]) && k in states[n + 1].store
    ensures HoldsAt(p, k, states[n + 1])
  {
    InvThroughout(selected, states, steps, n);
    StepKeeps(selected, p, k, states[n], steps[n]);
  }

  /**
   Whatever the other writers and every merge respect holds of a deployment for as long as it
   exists, in every interleaving.
   */
  lemma {:induction false} KeptThroughout(selected: Deployment -> bool, p: Deployment -> bool, k: string,
      states: seq<State>, steps: seq<Step>, n: nat)
    requires Run(selected, states, steps) && Inv(states[0]) && Respected(p, k, states, steps)
    requires ExistsUpTo(k, states, n) && HoldsAt(p, k, states[0])
    ensures HoldsAt(p, k, states[n])
  {
    if n > 0 {
      KeptThroughout(selected, p, k, states, steps, n - 1);
      RunStep(selected, p, k, states, steps, n - 1);
    }
  }

  /** No other writer changes the given part of the deployment at the key. */
  ghost predicate OthersKeep<X(!new)>(part: Deployment -> X, k: string, states: seq<State>, steps: seq<Step>)
    requires |states| == |steps| + 1
  {
    forall i :: 0 <= i < |steps| ==>
      steps[i].Foreign? && steps[i].key == k && steps[i].obj.Some? && k in states[i].store ==>
      part(steps[i].obj.value) == part(states[i].store[k].d)
  }

  /** The deployment at the key exists all along. */
  ghost predicate Exists(k: string, states: seq<State>) { forall i :: 0 <= i < |states| ==> k in states[i].store }

  /** The selector is immutable for the others by the API server's rule, and the operator never sends another one. */
  lemma SelectorNeverChanges(selected: Deployment -> bool, k: string, states: seq<State>, steps: seq<Step>, n: nat)
    requires Run(selected, states, steps) && Inv(states[0]) && n < |states| && Exists(k, states)
    requires OthersKeep((d: Deployment) => d.spec.selector, k, states, steps)
    ensures states[n].store[k].d.spec.selector == states[0].store[k].d.spec.selector
  {
    var was := states[0].store[k].d.spec.selector;
    KeptThroughout(selected, (d: Deployment) => d.spec.selector == was, k, states, steps, n);
  }

  /** A replica count set by an autoscaler stays, as long as no desired deployment names one. */
  lemma ReplicasKept(selected: Deployment -> bool, k: string, states: seq<State>, steps: seq<Step>, n: nat)
    requires Run(selected, states, steps) && Inv(states[0]) && n < |states| && Exists(k, states)
    requires OthersKeep((d: Deployment) => d.spec.replicas, k, states, steps)
    requires forall i :: 0 <= i < |states| && k in states[i].want ==> states[i].want[k].spec.replicas.None?
    ensures states[n].store[k].d.spec.replicas == states[0].store[k].d.spec.replicas
  {
    var was := states[0].store[k].d.spec.replicas;
    KeptThroughout(selected, (d: Deployment) => d.spec.replicas == was, k, states, steps, n);
  }

  /** The first cookie secret survives every desired one, as long as each has a place for it. */
  lemma CookieSurvives(selected: Deployment -> bool, k: string, states: seq<State>, steps: seq<Step>, n: nat)
    requires Run(selected, states, steps) && Inv(states[0]) && n < |states| && Exists(k, states)
    requires OthersKeep((d: Deployment) => CookieArg(d.spec.containers), k, states, steps)
    requires forall i :: 0 <= i < |states| && k in states[i].want ==> FirstFlagged(states[i].want[k].spec.containers)
    requires CookieArg(states[0].store[k].d.spec.containers) != ""
    ensures CookieArg(states[n].store[k].d.spec.containers) == CookieArg(states[0].store[k].d.spec.containers)
  {
    var was := CookieArg(states[0].store[k].d.spec.containers);
    var p := (d: Deployment) => CookieArg(d.spec.containers) == was;
    forall i | 0 <= i < |states| ensures MergesRespect(p, k, states[i]) {
      forall t | k in states[i].want && p(t) ensures p(MergeDeployment(t, states[i].want[k])) {
        CookieKept(t, states[i].want[k]);
      }
    }
    KeptThroughout(selected, p, k, states, steps, n);
  }
}
