/**
 The upgrade engine (pkg/upgrade/main.go, pkg/upgrade/upgrade.go): the registered versions are
 sorted once, and an instance is folded through the steps in (current, latest].
 */
module Upgrade {
  import opened Text

  datatype Version = Version(major: nat, minor: nat, patch: nat)

  predicate Less(a: Version, b: Version) {
    a.major < b.major || (a.major == b.major && (a.minor < b.minor || (a.minor == b.minor && a.patch < b.patch)))
  }

  predicate AtMost(a: Version, b: Version) { a == b || Less(a, b) }

  const START := Version(1, 11, 0)

  // --- versions ----------------------------------------------------------------------------

  predicate Ascending(vs: seq<Version>) { forall i, j :: 0 <= i < j < |vs| ==> Less(vs[i], vs[j]) }

  ghost function Elements(vs: seq<Version>): set<Version> { set v | v in vs }

  /** The sort of a list without repetitions, one insertion at a time. */
  function InsertVersion(v: Version, vs: seq<Version>): seq<Version> {
    if vs == [] then [v] else if Less(v, vs[0]) then [v] + vs else [vs[0]] + InsertVersion(v, vs[1..])
  }

  lemma {:induction false} InsertVersionAscending(v: Version, vs: seq<Version>)
    requires Ascending(vs) && v !in vs
    ensures Ascending(InsertVersion(v, vs)) && Elements(InsertVersion(v, vs)) == Elements(vs) + {v}
  {
    if vs != [] && !Less(v, vs[0]) {
      var rest := InsertVersion(v, vs[1..]);
      InsertVersionAscending(v, vs[1..]);
      assert vs == [vs[0]] + vs[1..];
      assert forall x :: x in rest ==> x in Elements(rest);
      assert Elements([vs[0]] + rest) == {vs[0]} + Elements(rest);
      assert forall x :: x in rest ==> Less(vs[0], x);
    } else if vs != [] {
      assert Elements([v] + vs) == Elements(vs) + {v};
    }
  }

  /** sort.Sort on a list of distinct versions, as a value (unique by AscendingUnique). */
  function SortVersions(vs: seq<Version>): seq<Version> {
    if vs == [] then [] else InsertVersion(vs[0], SortVersions(vs[1..]))
  }

  ghost predicate Distinct(vs: seq<Version>) { forall i, j :: 0 <= i < j < |vs| ==> vs[i] != vs[j] }

  lemma {:induction false} SortVersionsAscending(vs: seq<Version>)
    requires Distinct(vs)
    ensures Ascending(SortVersions(vs)) && Elements(SortVersions(vs)) == Elements(vs)
  {
    if vs != [] {
      SortVersionsAscending(vs[1..]);
      assert vs == [vs[0]] + vs[1..];
      assert vs[0] !in Elements(SortVersions(vs[1..]));
      InsertVersionAscending(vs[0], SortVersions(vs[1..]));
    }
  }

  /** `versions`: whatever order the registry is ranged over, the list comes out ascending. */
  method Versions(registry: set<Version>) returns (list: seq<Version>)
    ensures Ascending(list) && Elements(list) == registry
  {
    list := [];
    var todo := registry;
    while todo != {}
      invariant todo <= registry && Distinct(list) && Elements(list) == registry - todo
      decreases todo
    {
      var v :| v in todo;
      assert v !in Elements(list);
      assert Elements(list + [v]) == Elements(list) + {v};
      list := list + [v];
      todo := todo - {v};
    }
    SortVersionsAscending(list);
    list := SortVersions(list);
  }

  lemma NoElements(vs: seq<Version>)
    ensures vs == [] <==> Elements(vs) == {}
  {
    if vs != [] { assert vs[0] in Elements(vs); }
  }

  lemma {:induction false} AscendingUnique(a: seq<Version>, b: seq<Version>)
    requires Ascending(a) && Ascending(b) && Elements(a) == Elements(b)
    ensures a == b
  {
    if a == [] || b == [] {
      NoElements(a);
      NoElements(b);
    } else {
      assert a[0] in Elements(b) && b[0] in Elements(a);
      assert a == [a[0]] + a[1..] && b == [b[0]] + b[1..];
      assert a[0] == b[0];
      assert Elements(a[1..]) == Elements(a) - {a[0]};
      assert Elements(b[1..]) == Elements(b) - {b[0]};
      AscendingUnique(a[1..], b[1..]);
    }
  }

  // --- ManagedInstance ---------------------------------------------------------------------

  /** An instance: its status version (None when it does not parse) and the rest of it. */
  datatype Instance<S> = Instance(version: Option<Version>, spec: S)

  datatype Outcome<S> = Done(instance: Instance<S>) | Failed

  /** `upgrades[v]` applied to an instance */
  type Steps<!S> = (Version, Instance<S>) -> Outcome<S>

  datatype Result<S> = Result(instance: Instance<S>, ok: bool)

  predicate Due(v: Version, current: Version, latest: Version) { Less(current, v) && AtMost(v, latest) }

  /** The registered versions in (current, latest]. */
  function Plan(list: seq<Version>, current: Version, latest: Version): seq<Version> {
    if list == [] then []
    else (if Due(list[0], current, latest) then [list[0]] else []) + Plan(list[1..], current, latest)
  }

  /** Runs the planned steps; a failing step gives back the instance from before it. */
  function RunSteps<S>(steps: Steps<S>, plan: seq<Version>, j: Instance<S>): Result<S> {
    if plan == [] then Result(j, true)
    else match steps(plan[0], j)
      case Failed => Result(j, false)
      case Done(u) => RunSteps(steps, plan[1..], u.(version := Some(plan[0])))
  }

  function Upgraded<S>(steps: Steps<S>, list: seq<Version>, j: Instance<S>, latest: Version): Result<S> {
    if j.version.None? then Result(j, false)
    else
      var current := j.version.value;
      if Less(current, START) || Less(latest, current) then Result(j, true)
      else
        var r := RunSteps(steps, Plan(list, current, latest), j);
        if r.ok then Result(r.instance.(version := Some(latest)), true) else r
  }

  /** The instance went through the versions one by one, each step starting from what the one before gave. */
  ghost predicate WentThrough<S>(steps: Steps<S>, ran: seq<Version>, states: seq<Instance<S>>, j: Instance<S>) {
    && |states| == |ran| + 1 && states[0] == j
    && forall i :: 0 <= i < |ran| ==>
         && steps(ran[i], states[i]).Done?
         && states[i + 1] == Instance(Some(ran[i]), steps(ran[i], states[i]).instance.spec)
  }

  /**
   ManagedInstance. `ran` are the versions whose steps succeeded and `states` the instances between them: a
   success went through the whole plan and takes the latest version, a failure stopped before a step that fails.
   */
  method ManagedInstance<S>(steps: Steps<S>, list: seq<Version>, j: Instance<S>, latest: Version)
    returns (r: Result<S>, ghost ran: seq<Version>, ghost states: seq<Instance<S>>)
    ensures r == Upgraded(steps, list, j, latest)
    ensures WentThrough(steps, ran, states, j)
    ensures j.version.Some? && AtMost(START, j.version.value) && AtMost(j.version.value, latest) ==>
              var plan := Plan(list, j.version.value, latest);
              && ran <= plan
              && (r.ok ==> ran == plan && r.instance == Instance(Some(latest), states[|ran|].spec))
              && (!r.ok ==> |ran| < |plan| && steps(plan[|ran|], states[|ran|]).Failed? && r.instance == states[|ran|])
    ensures j.version.None? || Less(j.version.value, START) || Less(latest, j.version.value) ==>
              ran == [] && r.instance == j && (r.ok <==> j.version.Some?)
  {
    ran, states := [], [j];
    if j.version.None? { return Result(j, false), [], [j]; }
    var current := j.version.value;
    if Less(current, START) { return Result(j, true), [], [j]; }
    if Less(latest, current) { return Result(j, true), [], [j]; }
    var jaeger := j;
    ghost var plan := Plan(list, current, latest);
    for i := 0 to |list|
      invariant ran + Plan(list[i..], current, latest) == plan
      invariant WentThrough(steps, ran, states, j) && states[|ran|] == jaeger
      invariant RunSteps(steps, plan, j) == RunSteps(steps, Plan(list[i..], current, latest), jaeger)
    {
      var v := list[i];
      assert list[i..][0] == v && list[i..][1..] == list[i + 1..];
      if Due(v, current, latest) {
        var rest := Plan(list[i + 1..], current, latest);
        assert Plan(list[i..], current, latest) == [v] + rest;
        assert ([v] + rest)[1..] == rest;
        match steps(v, jaeger) {
          case Failed =>
            assert plan[|ran|] == v;
            return Result(jaeger, false), ran, states;
          case Done(upgraded) => jaeger := upgraded.(version := Some(v));
        }
        ran, states := ran + [v], states + [jaeger];
      } else {
        assert Plan(list[i..], current, latest) == Plan(list[i + 1..], current, latest);
      }
    }
    assert list[|list|..] == [];
    r := Result(jaeger.(version := Some(latest)), true);
  }

  /** The plan holds exactly the due versions, each once, in ascending order. */
  lemma {:induction false} PlanExact(list: seq<Version>, current: Version, latest: Version)
    requires Ascending(list)
    ensures Ascending(Plan(list, current, latest))
    ensures forall v :: v in Plan(list, current, latest) <==> v in list && Less(current, v) && AtMost(v, latest)
  {
    if list != [] {
      PlanExact(list[1..], current, latest);
      assert list == [list[0]] + list[1..];
      var rest := Plan(list[1..], current, latest);
      forall i | 0 <= i < |rest| ensures Less(list[0], rest[i]) { assert rest[i] in rest; }
    }
  }

  /** Going to `a` first and to `b` from there plans the same steps as going to `b`. */
  lemma {:induction false} PlanSplit(list: seq<Version>, current: Version, a: Version, b: Version)
    requires Ascending(list) && AtMost(current, a) && AtMost(a, b)
    ensures Plan(list, current, b) == Plan(list, current, a) + Plan(list, a, b)
  {
    if list != [] {
      var v, rest := list[0], list[1..];
      PlanSplit(rest, current, a, b);
      DueSplit(v, current, a, b);
      if Due(v, a, b) {
        assert list == [v] + rest;
        NothingDue(rest, v, current, a);
      } else if Due(v, current, a) {
        assert [v] + (Plan(rest, current, a) + Plan(rest, a, b)) == [v] + Plan(rest, current, a) + Plan(rest, a, b);
      }
    }
  }

  lemma DueSplit(v: Version, current: Version, a: Version, b: Version)
    requires AtMost(current, a) && AtMost(a, b)
    ensures Due(v, current, b) <==> Due(v, current, a) || Due(v, a, b)
    ensures !(Due(v, current, a) && Due(v, a, b))
  {
  }

  lemma {:induction false} NothingDue(list: seq<Version>, v: Version, current: Version, a: Version)
    requires Ascending([v] + list) && Less(a, v)
    ensures Plan(list, current, a) == []
  {
    if list != [] {
      assert Less(([v] + list)[0], ([v] + list)[1]);
      assert Ascending([list[0]] + list[1..]) by {
        assert forall i :: 0 <= i < |list| ==> ([v] + list)[i + 1] == list[i];
        assert [list[0]] + list[1..] == list;
      }
      NothingDue(list[1..], list[0], current, a);
    }
  }

  lemma {:induction false} RunConcat<S>(steps: Steps<S>, p: seq<Version>, q: seq<Version>, j: Instance<S>)
    ensures var r := RunSteps(steps, p, j);
            RunSteps(steps, p + q, j) == if r.ok then RunSteps(steps, q, r.instance) else r
  {
    if p == [] {
      assert p + q == q;
    } else {
      assert (p + q)[1..] == p[1..] + q;
      match steps(p[0], j)
      case Failed =>
      case Done(u) => RunConcat(steps, p[1..], q, u.(version := Some(p[0])));
    }
  }

  /** A step neither reads nor depends on the status version. */
  ghost predicate Blind<S(!new)>(steps: Steps<S>) {
    forall v, j: Instance<S>, x ::
      match steps(v, j)
      case Failed => steps(v, j.(version := x)).Failed?
      case Done(u) => steps(v, j.(version := x)).Done? && steps(v, j.(version := x)).instance.spec == u.spec
  }

  lemma {:induction false} RunBlind<S(!new)>(steps: Steps<S>, plan: seq<Version>, j: Instance<S>, x: Option<Version>)
    requires Blind(steps)
    ensures var r, s := RunSteps(steps, plan, j), RunSteps(steps, plan, j.(version := x));
            r.ok == s.ok && r.instance.spec == s.instance.spec
  {
    if plan != [] {
      match steps(plan[0], j)
      case Failed =>
      case Done(u) =>
        var w := steps(plan[0], j.(version := x)).instance;
        assert u.(version := Some(plan[0])) == w.(version := Some(plan[0]));
    }
  }

  /**
   Path independence: from 1.11.0 on, stopping at `a` on the way to `b` makes no difference.
   The direct upgrade succeeds exactly when both legs do, and then ends in the same instance.
   */
  lemma UpgradePathIndependent<S(!new)>(steps: Steps<S>, list: seq<Version>, j: Instance<S>, a: Version, b: Version)
    requires Ascending(list) && Blind(steps)
    requires j.version.Some? && AtMost(START, j.version.value) && AtMost(j.version.value, a) && AtMost(a, b)
    ensures var direct := Upgraded(steps, list, j, b);
            var leg1 := Upgraded(steps, list, j, a);
            var leg2 := Upgraded(steps, list, leg1.instance, b);
            && (direct.ok <==> leg1.ok && leg2.ok)
            && (direct.ok ==> direct == leg2)
  {
    var current := j.version.value;
    PlanSplit(list, current, a, b);
    RunConcat(steps, Plan(list, current, a), Plan(list, a, b), j);
    var r := RunSteps(steps, Plan(list, current, a), j);
    RunBlind(steps, Plan(list, a, b), r.instance, Some(a));
  }
}
