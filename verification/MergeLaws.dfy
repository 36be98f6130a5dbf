/** What Merge of the common blocks answers (pkg/util/util.go), said without the way it gets there. */
module MergeLaws {
  import opened Text
  import opened CommonSpec

  // --- The first item of each name ---------------------------------------------------------

  /** The item at `i` is the first of its name. */
  ghost predicate FirstOfName<T(!new)>(xs: seq<T>, name: T -> string, i: nat) {
    i < |xs| && forall j :: 0 <= j < i ==> name(xs[j]) != name(xs[i])
  }

  /** `at` are positions in `xs`, ascending, exactly those of the first items of each name; `r` are the items. */
  ghost predicate Picks<T(!new)>(xs: seq<T>, name: T -> string, at: seq<nat>, r: seq<T>) {
    && |at| == |r| && (forall p, q :: 0 <= p < q < |at| ==> at[p] < at[q])
    && (forall p :: 0 <= p < |at| ==> at[p] < |xs| && r[p] == xs[at[p]])
    && forall i: nat :: i < |xs| ==> (i in at <==> FirstOfName(xs, name, i))
  }

  ghost predicate FirstOfEach<T(!new)>(xs: seq<T>, name: T -> string, r: seq<T>) { exists at :: Picks(xs, name, at, r) }

  /** The same when the names in `seen` do not count. */
  ghost predicate PicksUnseen<T(!new)>(xs: seq<T>, seen: set<string>, name: T -> string, at: seq<nat>, r: seq<T>) {
    && |at| == |r| && (forall p, q :: 0 <= p < q < |at| ==> at[p] < at[q])
    && (forall p :: 0 <= p < |at| ==> at[p] < |xs| && r[p] == xs[at[p]])
    && forall i: nat :: i < |xs| ==> (i in at <==> FirstOfName(xs, name, i) && name(xs[i]) !in seen)
  }

  function Shifted(at: seq<nat>): seq<nat> { seq(|at|, p requires 0 <= p < |at| => at[p] + 1) }

  lemma InShifted(at: seq<nat>, i: nat)
    ensures i in Shifted(at) <==> i > 0 && i - 1 in at
  {
    if i in Shifted(at) {
      var p :| 0 <= p < |at| && Shifted(at)[p] == i;
      assert at[p] == i - 1;
    }
    if i > 0 && i - 1 in at {
      var p :| 0 <= p < |at| && at[p] == i - 1;
      assert Shifted(at)[p] == i;
    }
  }

  lemma FirstInTail<T(!new)>(xs: seq<T>, name: T -> string, i: nat)
    requires 0 < i < |xs|
    ensures FirstOfName(xs, name, i) <==> FirstOfName(xs[1..], name, i - 1) && name(xs[0]) != name(xs[i])
  {
    var rest := xs[1..];
    assert forall j :: 0 <= j < |rest| ==> rest[j] == xs[j + 1];
    if FirstOfName(rest, name, i - 1) && name(xs[0]) != name(xs[i]) {
      forall j | 0 <= j < i ensures name(xs[j]) != name(xs[i]) {
        if j > 0 { assert name(rest[j - 1]) != name(rest[i - 1]); }
      }
    }
    if FirstOfName(xs, name, i) {
      forall j | 0 <= j < i - 1 ensures name(rest[j]) != name(rest[i - 1]) { assert name(xs[j + 1]) != name(xs[i]); }
    }
  }

  lemma {:induction false} DedupPicks<T(!new)>(xs: seq<T>, seen: set<string>, name: T -> string) returns (at: seq<nat>)
    ensures PicksUnseen(xs, seen, name, at, Dedup(xs, seen, name))
  {
    if xs == [] {
      at := [];
    } else {
      var n := name(xs[0]);
      var rest := DedupPicks(xs[1..], if n in seen then seen else seen + {n}, name);
      at := (if n in seen then [] else [0]) + Shifted(rest);
      PickedTail(xs, seen, name, rest, at);
    }
  }

  lemma PickedTail<T(!new)>(xs: seq<T>, seen: set<string>, name: T -> string, rest: seq<nat>, at: seq<nat>)
    requires xs != []
    requires var n := name(xs[0]);
             && at == (if n in seen then [] else [0]) + Shifted(rest)
             && PicksUnseen(xs[1..], if n in seen then seen else seen + {n}, name, rest,
                            Dedup(xs[1..], if n in seen then seen else seen + {n}, name))
    ensures PicksUnseen(xs, seen, name, at, Dedup(xs, seen, name))
  {
    var n := name(xs[0]);
    var tail := Dedup(xs[1..], if n in seen then seen else seen + {n}, name);
    PlacedTail(xs, rest, tail, n in seen, at, Dedup(xs, seen, name));
    forall i: nat | i < |xs| ensures i in at <==> FirstOfName(xs, name, i) && name(xs[i]) !in seen {
      InShifted(rest, i);
      if i > 0 { PickedAt(xs, seen, name, rest, tail, i); } else { assert FirstOfName(xs, name, 0); }
    }
  }

  /** The positions move on by one, and the first may come in. */
  lemma PlacedTail<T(!new)>(xs: seq<T>, rest: seq<nat>, tail: seq<T>, skip: bool, at: seq<nat>, r: seq<T>)
    requires xs != [] && |rest| == |tail| && (forall p, q :: 0 <= p < q < |rest| ==> rest[p] < rest[q])
    requires forall p :: 0 <= p < |rest| ==> rest[p] < |xs[1..]| && tail[p] == xs[1..][rest[p]]
    requires at == (if skip then [] else [0]) + Shifted(rest) && r == (if skip then tail else [xs[0]] + tail)
    ensures |at| == |r| && (forall p, q :: 0 <= p < q < |at| ==> at[p] < at[q])
    ensures forall p :: 0 <= p < |at| ==> at[p] < |xs| && r[p] == xs[at[p]]
  {
    forall p | 0 <= p < |at| ensures at[p] < |xs| && r[p] == xs[at[p]] {
      var q := if skip then p else p - 1;
      if q >= 0 { assert at[p] == rest[q] + 1 && r[p] == tail[q] == xs[1..][rest[q]]; }
    }
  }

  lemma PickedAt<T(!new)>(xs: seq<T>, seen: set<string>, name: T -> string, rest: seq<nat>, tail: seq<T>, i: nat)
    requires 0 < i < |xs|
    requires var n := name(xs[0]); PicksUnseen(xs[1..], if n in seen then seen else seen + {n}, name, rest, tail)
    ensures i - 1 in rest <==> FirstOfName(xs, name, i) && name(xs[i]) !in seen
  {
    var j: nat := i - 1;
    assert xs[1..][j] == xs[i];
    FirstInTail(xs, name, i);
    assert j < |xs[1..]|;
  }

  lemma DedupKeepsFirst<T(!new)>(xs: seq<T>, name: T -> string)
    ensures FirstOfEach(xs, name, Dedup(xs, {}, name))
  {
    var at := DedupPicks(xs, {}, name);
    assert Picks(xs, name, at, Dedup(xs, {}, name));
  }

  // --- The blocks, most specific first -----------------------------------------------------

  /** The first block that has a value decides. */
  ghost predicate FirstSet<T(!new)>(specs: seq<Spec>, f: Spec -> Option<T>, r: Option<T>) {
    if forall i :: 0 <= i < |specs| ==> f(specs[i]).None? then r == None
    else exists i :: 0 <= i < |specs| && f(specs[i]).Some? && r == f(specs[i])
                     && forall j :: 0 <= j < i ==> f(specs[j]).None?
  }

  ghost predicate FirstText(specs: seq<Spec>, f: Spec -> string, r: string) {
    if forall i :: 0 <= i < |specs| ==> f(specs[i]) == "" then r == ""
    else exists i :: 0 <= i < |specs| && f(specs[i]) != "" && r == f(specs[i])
                     && forall j :: 0 <= j < i ==> f(specs[j]) == ""
  }

  /** Key by key, the first block that has an entry decides. */
  ghost predicate FirstEntry(specs: seq<Spec>, f: Spec -> map<string, string>, r: map<string, string>) {
    && (forall k :: k in r ==> exists i :: EntryAt(specs, f, k, i) && r[k] == f(specs[i])[k])
    && forall k, i :: 0 <= i < |specs| && k in f(specs[i]) ==> k in r
  }

  ghost predicate EntryAt(specs: seq<Spec>, f: Spec -> map<string, string>, k: string, i: int) {
    0 <= i < |specs| && k in f(specs[i]) && forall j :: 0 <= j < i ==> k !in f(specs[j])
  }

  /** All the lists one after the other. */
  function Joined<T>(specs: seq<Spec>, f: Spec -> seq<T>): seq<T> {
    if specs == [] then [] else f(specs[0]) + Joined(specs[1..], f)
  }

  /** What a merge of blocks is, field by field. The liveness probe is lost. */
  ghost predicate MergeFits(specs: seq<Spec>, r: Spec) {
    && FirstEntry(specs, (s: Spec) => s.annotations, r.annotations)
        && FirstEntry(specs, (s: Spec) => s.labels, r.labels)
    && FirstEntry(specs, (s: Spec) => s.resources.limits, r.resources.limits)
    && FirstEntry(specs, (s: Spec) => s.resources.requests, r.resources.requests)
    && FirstSet(specs, (s: Spec) => s.affinity, r.affinity)
    && FirstSet(specs, (s: Spec) => s.securityContext, r.securityContext)
    && FirstSet(specs, (s: Spec) => s.containerSecurityContext, r.containerSecurityContext)
    && FirstText(specs, (s: Spec) => s.serviceAccount, r.serviceAccount)
    && FirstText(specs, (s: Spec) => s.imagePullPolicy, r.imagePullPolicy)
    && r.tolerations == Joined(specs, (s: Spec) => s.tolerations) && r.livenessProbe == None
    && FirstOfEach(Joined(specs, (s: Spec) => s.volumes), (v: Volume) => v.name, r.volumes)
    && FirstOfEach(Joined(specs, (s: Spec) => s.volumeMounts), (v: VolumeMount) => v.name, r.volumeMounts)
    && FirstOfEach(Joined(specs, (s: Spec) => s.imagePullSecrets), (v: LocalObjectReference) => v.name,
        r.imagePullSecrets)
  }

  lemma {:induction false} EntriesGathered(specs: seq<Spec>, f: Spec -> map<string, string>,
      g: seq<Spec> -> map<string, string>)
    requires g([]) == map[] && forall s: seq<Spec> :: s != [] ==> g(s) == g(s[1..]) + f(s[0])
    ensures FirstEntry(specs, f, g(specs))
  {
    if specs != [] {
      EntriesGathered(specs[1..], f, g);
      FirstEntryMore(specs, f, g(specs[1..]));
    }
  }

  lemma FirstEntryMore(specs: seq<Spec>, f: Spec -> map<string, string>, r: map<string, string>)
    requires specs != [] && FirstEntry(specs[1..], f, r)
    ensures FirstEntry(specs, f, r + f(specs[0]))
  {
    var all := r + f(specs[0]);
    forall k | k in all ensures exists i :: EntryAt(specs, f, k, i) && all[k] == f(specs[i])[k] {
      if k in f(specs[0]) {
        assert EntryAt(specs, f, k, 0);
      } else {
        var i :| EntryAt(specs[1..], f, k, i) && r[k] == f(specs[1..][i])[k];
        assert forall j :: 0 < j < i + 1 ==> specs[j] == specs[1..][j - 1];
        assert EntryAt(specs, f, k, i + 1);
      }
    }
    forall k, i | 0 <= i < |specs| && k in f(specs[i]) ensures k in all {
      if i > 0 { assert specs[i] == specs[1..][i - 1]; }
    }
  }

  lemma {:induction false} SetGathered<T(!new)>(specs: seq<Spec>, f: Spec -> Option<T>, g: seq<Spec> -> Option<T>)
    requires g([]) == None && forall s: seq<Spec> :: s != [] ==> g(s) == if f(s[0]).None? then g(s[1..]) else f(s[0])
    ensures FirstSet(specs, f, g(specs))
  {
    if specs != [] && f(specs[0]).None? {
      SetGathered(specs[1..], f, g);
      assert forall j :: 0 < j < |specs| ==> specs[j] == specs[1..][j - 1];
      if exists i :: 0 <= i < |specs| && f(specs[i]).Some? {
        var i :| 0 <= i < |specs| && f(specs[i]).Some?;
        assert f(specs[1..][i - 1]).Some?;
        var k :| 0 <= k < |specs| - 1 && f(specs[1..][k]).Some? && g(specs) == f(specs[1..][k])
                 && forall j :: 0 <= j < k ==> f(specs[1..][j]).None?;
        assert f(specs[k + 1]).Some? && forall j :: 0 <= j < k + 1 ==> f(specs[j]).None?;
      }
    }
  }

  lemma {:induction false} TextGathered(specs: seq<Spec>, f: Spec -> string, g: seq<Spec> -> string)
    requires g([]) == "" && forall s: seq<Spec> :: s != [] ==> g(s) == if f(s[0]) == "" then g(s[1..]) else f(s[0])
    ensures FirstText(specs, f, g(specs))
  {
    if specs != [] && f(specs[0]) == "" {
      TextGathered(specs[1..], f, g);
      assert forall j :: 0 < j < |specs| ==> specs[j] == specs[1..][j - 1];
      if exists i :: 0 <= i < |specs| && f(specs[i]) != "" {
        var i :| 0 <= i < |specs| && f(specs[i]) != "";
        assert f(specs[1..][i - 1]) != "";
        var k :| 0 <= k < |specs| - 1 && f(specs[1..][k]) != "" && g(specs) == f(specs[1..][k])
                 && forall j :: 0 <= j < k ==> f(specs[1..][j]) == "";
        assert f(specs[k + 1]) != "" && forall j :: 0 <= j < k + 1 ==> f(specs[j]) == "";
      }
    }
  }

  lemma {:induction false} JoinedGathered<T>(specs: seq<Spec>, f: Spec -> seq<T>, g: seq<Spec> -> seq<T>)
    requires g([]) == [] && forall s: seq<Spec> :: s != [] ==> g(s) == f(s[0]) + g(s[1..])
    ensures g(specs) == Joined(specs, f)
  {
    if specs != [] { JoinedGathered(specs[1..], f, g); }
  }

  lemma SameNames<T(!new)>(xs: seq<T>, f: T -> string, g: T -> string, r: seq<T>)
    requires FirstOfEach(xs, f, r) && forall x :: f(x) == g(x)
    ensures FirstOfEach(xs, g, r)
  {
    var at :| Picks(xs, f, at, r);
    assert forall i: nat :: FirstOfName(xs, f, i) <==> FirstOfName(xs, g, i);
    assert Picks(xs, g, at, r);
  }

  lemma EntriesMerged(specs: seq<Spec>)
    ensures var r := Merged(specs);
            && FirstEntry(specs, (s: Spec) => s.annotations, r.annotations)
            && FirstEntry(specs, (s: Spec) => s.labels, r.labels)
  {
    EntriesGathered(specs, (s: Spec) => s.annotations, (ss: seq<Spec>) => GatherAll(ss).annotations);
    EntriesGathered(specs, (s: Spec) => s.labels, (ss: seq<Spec>) => GatherAll(ss).labels);
  }

  lemma ResourcesMerged(specs: seq<Spec>)
    ensures var r := Merged(specs);
            && FirstEntry(specs, (s: Spec) => s.resources.limits, r.resources.limits)
            && FirstEntry(specs, (s: Spec) => s.resources.requests, r.resources.requests)
  {
    EntriesGathered(specs, (s: Spec) => s.resources.limits, (ss: seq<Spec>) => GatherAll(ss).resources.limits);
    EntriesGathered(specs, (s: Spec) => s.resources.requests, (ss: seq<Spec>) => GatherAll(ss).resources.requests);
  }

  lemma ScalarsMerged(specs: seq<Spec>)
    ensures var r := Merged(specs);
            && FirstSet(specs, (s: Spec) => s.affinity, r.affinity)
            && FirstSet(specs, (s: Spec) => s.securityContext, r.securityContext)
            && FirstSet(specs, (s: Spec) => s.containerSecurityContext, r.containerSecurityContext)
            && FirstText(specs, (s: Spec) => s.serviceAccount, r.serviceAccount)
            && FirstText(specs, (s: Spec) => s.imagePullPolicy, r.imagePullPolicy) && r.livenessProbe == None
  {
    SetGathered(specs, (s: Spec) => s.affinity, (ss: seq<Spec>) => GatherAll(ss).affinity);
    SetGathered(specs, (s: Spec) => s.securityContext, (ss: seq<Spec>) => GatherAll(ss).securityContext);
    SetGathered(specs, (s: Spec) => s.containerSecurityContext,
        (ss: seq<Spec>) => GatherAll(ss).containerSecurityContext);
    TextGathered(specs, (s: Spec) => s.serviceAccount, (ss: seq<Spec>) => GatherAll(ss).serviceAccount);
    TextGathered(specs, (s: Spec) => s.imagePullPolicy, (ss: seq<Spec>) => GatherAll(ss).imagePullPolicy);
  }

  lemma ListsMerged(specs: seq<Spec>)
    ensures var r := Merged(specs);
            && r.tolerations == Joined(specs, (s: Spec) => s.tolerations)
            && FirstOfEach(Joined(specs, (s: Spec) => s.volumes), (v: Volume) => v.name, r.volumes)
            && FirstOfEach(Joined(specs, (s: Spec) => s.volumeMounts), (v: VolumeMount) => v.name, r.volumeMounts)
            && FirstOfEach(Joined(specs, (s: Spec) => s.imagePullSecrets), (v: LocalObjectReference) => v.name,
                r.imagePullSecrets)
  {
    var all := GatherAll(specs);
    JoinedGathered(specs, (s: Spec) => s.tolerations, (ss: seq<Spec>) => GatherAll(ss).tolerations);
    JoinedGathered(specs, (s: Spec) => s.volumes, (ss: seq<Spec>) => GatherAll(ss).volumes);
    JoinedGathered(specs, (s: Spec) => s.volumeMounts, (ss: seq<Spec>) => GatherAll(ss).volumeMounts);
    JoinedGathered(specs, (s: Spec) => s.imagePullSecrets, (ss: seq<Spec>) => GatherAll(ss).imagePullSecrets);
    DedupKeepsFirst(all.volumes, VolumeName);
    DedupKeepsFirst(all.volumeMounts, MountName);
    DedupKeepsFirst(all.imagePullSecrets, SecretName);
    SameNames(all.volumes, VolumeName, (v: Volume) => v.name, Dedup(all.volumes, {}, VolumeName));
    SameNames(all.volumeMounts, MountName, (v: VolumeMount) => v.name, Dedup(all.volumeMounts, {}, MountName));
    SameNames(all.imagePullSecrets, SecretName, (v: LocalObjectReference) => v.name,
        Dedup(all.imagePullSecrets, {}, SecretName));
  }

  /** Field by field, the most specific block that says something decides; lists are joined. */
  lemma MergedFits(specs: seq<Spec>)
    ensures MergeFits(specs, Merged(specs))
  {
    EntriesMerged(specs);
    ResourcesMerged(specs);
    ScalarsMerged(specs);
    ListsMerged(specs);
  }
}
