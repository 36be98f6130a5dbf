/**
 Merging of JaegerCommonSpec blocks, most specific first (pkg/util/util.go): maps are
 left-biased, scalars first-wins, named lists concatenated and stripped of later duplicates.
 A nil map or slice and an empty one are the same value here.
 */
module CommonSpec {
  import opened Text

  datatype Volume = Volume(name: string, source: string)
  datatype VolumeMount = VolumeMount(name: string, path: string)
  datatype LocalObjectReference = LocalObjectReference(name: string)
  datatype Resources = Resources(limits: map<string, string>, requests: map<string, string>)

  datatype Spec = Spec(
    annotations: map<string, string>,
    labels: map<string, string>,
    volumes: seq<Volume>,
    volumeMounts: seq<VolumeMount>,
    resources: Resources,
    affinity: Option<string>,
    tolerations: seq<string>,
    securityContext: Option<string>,
    containerSecurityContext: Option<string>,
    serviceAccount: string,
    livenessProbe: Option<string>,
    imagePullSecrets: seq<LocalObjectReference>,
    imagePullPolicy: string)

  const EMPTY := Spec(map[], map[], [], [], Resources(map[], map[]), None, [], None, None, "", None, [], "")

  function VolumeName(v: Volume): string { v.name }
  function MountName(v: VolumeMount): string { v.name }
  function SecretName(r: LocalObjectReference): string { r.name }

  // --- Keeping the first item of each name -------------------------------------------------

  ghost function NamesOf<T>(xs: seq<T>, name: T -> string): set<string> { set x | x in xs :: name(x) }

  /** `xs` without the items whose name is in `seen` or was met before. */
  function Dedup<T>(xs: seq<T>, seen: set<string>, name: T -> string): seq<T> {
    if xs == [] then []
    else if name(xs[0]) in seen then Dedup(xs[1..], seen, name)
    else [xs[0]] + Dedup(xs[1..], seen + {name(xs[0])}, name)
  }

  /** RemoveDuplicatedVolumes, RemoveDuplicatedVolumeMounts and RemoveDuplicatedImagePullSecrets */
  method RemoveDuplicated<T>(xs: seq<T>, name: T -> string) returns (results: seq<T>)
    ensures results == Dedup(xs, {}, name)
  {
    results := [];
    var existing: set<string> := {};
    for i := 0 to |xs|
      invariant results + Dedup(xs[i..], existing, name) == Dedup(xs, {}, name)
    {
      assert xs[i..][0] == xs[i] && xs[i..][1..] == xs[i + 1..];
      if name(xs[i]) in existing { continue; }
      results := results + [xs[i]];
      existing := existing + {name(xs[i])};
    }
  }

  lemma {:induction false} DedupConcat<T>(a: seq<T>, b: seq<T>, seen: set<string>, name: T -> string)
    ensures Dedup(a + b, seen, name) == Dedup(a, seen, name) + Dedup(b, seen + NamesOf(a, name), name)
  {
    if a == [] {
      assert a + b == b && seen + NamesOf(a, name) == seen;
    } else {
      var n := name(a[0]);
      var seen' := if n in seen then seen else seen + {n};
      assert (a + b)[1..] == a[1..] + b;
      assert a == [a[0]] + a[1..];
      assert NamesOf(a, name) == {n} + NamesOf(a[1..], name);
      assert seen' + NamesOf(a[1..], name) == seen + NamesOf(a, name);
      DedupConcat(a[1..], b, seen', name);
    }
  }

  /** Filtering twice is filtering by both sets of names. */
  lemma {:induction false} DedupTwice<T>(a: seq<T>, s1: set<string>, s2: set<string>, name: T -> string)
    ensures Dedup(Dedup(a, s1, name), s2, name) == Dedup(a, s1 + s2, name)
  {
    if a != [] {
      var n := name(a[0]);
      if n in s1 {
        DedupTwice(a[1..], s1, s2, name);
      } else {
        DedupTwice(a[1..], s1 + {n}, s2, name);
        DedupTwice(a[1..], s1 + {n}, s2 + {n}, name);
        assert s1 + {n} + (s2 + {n}) == s1 + s2 + {n};
        if n in s2 { assert s1 + {n} + s2 == s1 + s2; }
        var d := Dedup(a[1..], s1 + {n}, name);
        assert Dedup(a, s1, name) == [a[0]] + d;
        assert ([a[0]] + d)[1..] == d;
      }
    }
  }

  lemma {:induction false} DedupNames<T>(a: seq<T>, seen: set<string>, name: T -> string)
    ensures NamesOf(Dedup(a, seen, name), name) == NamesOf(a, name) - seen
  {
    if a != [] {
      var n := name(a[0]);
      assert a == [a[0]] + a[1..];
      assert NamesOf(a, name) == {n} + NamesOf(a[1..], name);
      if n in seen {
        DedupNames(a[1..], seen, name);
      } else {
        var d := Dedup(a[1..], seen + {n}, name);
        DedupNames(a[1..], seen + {n}, name);
        assert NamesOf([a[0]] + d, name) == {n} + NamesOf(d, name);
      }
    }
  }

  /** Dedup is idempotent, and a concatenation may be deduplicated piecewise first. */
  lemma DedupAbsorbs<T>(a: seq<T>, b: seq<T>, name: T -> string)
    ensures Dedup(Dedup(a, {}, name), {}, name) == Dedup(a, {}, name)
    ensures Dedup(Dedup(a, {}, name) + Dedup(b, {}, name), {}, name) == Dedup(a + b, {}, name)
  {
    var da, db := Dedup(a, {}, name), Dedup(b, {}, name);
    var names := NamesOf(a, name);
    var none: set<string> := {};
    assert none + none == none;
    DedupTwice(a, none, none, name);
    DedupNames(a, {}, name);
    assert names - {} == names && {} + names == names;
    DedupConcat(da, db, {}, name);
    DedupTwice(b, {}, names, name);
    DedupConcat(a, b, {}, name);
  }

  /** A list followed by copies of its own items and others: the copies vanish. */
  lemma DedupRepeat<T>(a: seq<T>, b: seq<T>, name: T -> string)
    ensures Dedup(a + Dedup(a + b, {}, name), {}, name) == Dedup(a + b, {}, name)
  {
    var names := NamesOf(a, name);
    assert {} + names == names && names + names == names;
    DedupConcat(a, Dedup(a + b, {}, name), {}, name);
    DedupTwice(a + b, {}, names, name);
    DedupConcat(a, b, names, name);
    DedupConcat(a, b, {}, name);
    DedupSeen(a, names, name);
  }

  lemma {:induction false} DedupSeen<T>(a: seq<T>, seen: set<string>, name: T -> string)
    requires NamesOf(a, name) <= seen
    ensures Dedup(a, seen, name) == []
  {
    if a != [] {
      assert a[0] in a;
      assert forall x :: x in a[1..] ==> x in a;
      DedupSeen(a[1..], seen, name);
    }
  }

  // --- Merge -------------------------------------------------------------------------------

  function OrElse<T>(a: Option<T>, b: Option<T>): Option<T> { if a.None? then b else a }
  function OrText(a: string, b: string): string { if a == "" then b else a }

  /** One round of Merge's loop: `a` is what has been gathered, `b` is less specific. */
  function Gather(a: Spec, b: Spec): Spec {
    Spec(b.annotations + a.annotations, b.labels + a.labels,
         a.volumes + b.volumes, a.volumeMounts + b.volumeMounts,
         Resources(b.resources.limits + a.resources.limits, b.resources.requests + a.resources.requests),
         OrElse(a.affinity, b.affinity), a.tolerations + b.tolerations,
         OrElse(a.securityContext, b.securityContext),
         OrElse(a.containerSecurityContext, b.containerSecurityContext),
         OrText(a.serviceAccount, b.serviceAccount), None,
         a.imagePullSecrets + b.imagePullSecrets, OrText(a.imagePullPolicy, b.imagePullPolicy))
  }

  function GatherAll(specs: seq<Spec>): Spec {
    if specs == [] then EMPTY else Gather(specs[0], GatherAll(specs[1..]))
  }

  function Finish(s: Spec): Spec {
    s.(volumes := Dedup(s.volumes, {}, VolumeName),
       volumeMounts := Dedup(s.volumeMounts, {}, MountName),
       imagePullSecrets := Dedup(s.imagePullSecrets, {}, SecretName))
  }

  function Merged(specs: seq<Spec>): Spec { Finish(GatherAll(specs)) }

  /** "Only use the value if key has not already been used", for any range order. */
  method AddMissing(into: map<string, string>, from: map<string, string>) returns (r: map<string, string>)
    ensures r == from + into
  {
    r := into;
    var todo := from.Keys;
    while todo != {}
      invariant todo <= from.Keys
      invariant r == (map k | k in from && k !in todo :: from[k]) + into
      decreases todo
    {
      var k :| k in todo;
      if k !in r { r := r[k := from[k]]; }
      todo := todo - {k};
    }
  }

  method MergeResources(resources: Resources, res: Resources) returns (r: Resources)
    ensures r == Resources(res.limits + resources.limits, res.requests + resources.requests)
  {
    var limits := AddMissing(resources.limits, res.limits);
    var requests := AddMissing(resources.requests, res.requests);
    r := Resources(limits, requests);
  }

  method Merge(specs: seq<Spec>) returns (r: Spec)
    ensures r == Merged(specs)
  {
    var annotations: map<string, string>, labels: map<string, string> := map[], map[];
    var mounts: seq<VolumeMount>, volumes: seq<Volume> := [], [];
    var resources := Resources(map[], map[]);
    var affinity: Option<string>, tolerations: seq<string> := None, [];
    var securityContext: Option<string>, containerSecurityContext: Option<string> := None, None;
    var serviceAccount, imagePullPolicy := "", "";
    var imagePullSecrets: seq<LocalObjectReference> := [];
    ghost var acc := EMPTY;
    for i := 0 to |specs|
      invariant acc == GatherAll(specs[..i])
      invariant acc == Spec(annotations, labels, volumes, mounts, resources, affinity, tolerations,
                            securityContext, containerSecurityContext, serviceAccount, None,
                            imagePullSecrets, imagePullPolicy)
    {
      var c := specs[i];
      annotations := AddMissing(annotations, c.annotations);
      labels := AddMissing(labels, c.labels);
      mounts := mounts + c.volumeMounts;
      volumes := volumes + c.volumes;
      resources := MergeResources(resources, c.resources);
      if affinity.None? { affinity := c.affinity; }
      tolerations := tolerations + c.tolerations;
      if securityContext.None? { securityContext := c.securityContext; }
      if containerSecurityContext.None? { containerSecurityContext := c.containerSecurityContext; }
      if serviceAccount == "" { serviceAccount := c.serviceAccount; }
      imagePullSecrets := imagePullSecrets + c.imagePullSecrets;
      if imagePullPolicy == "" { imagePullPolicy := c.imagePullPolicy; }
      GatherSnoc(specs[..i], c);
      assert specs[..i + 1] == specs[..i] + [c];
      acc := Gather(acc, c);
    }
    assert specs[..|specs|] == specs;
    mounts := RemoveDuplicated(mounts, MountName);
    volumes := RemoveDuplicated(volumes, VolumeName);
    imagePullSecrets := RemoveDuplicated(imagePullSecrets, SecretName);
    r := Spec(annotations, labels, volumes, mounts, resources, affinity, tolerations, securityContext,
              containerSecurityContext, serviceAccount, None, imagePullSecrets, imagePullPolicy);
  }

  lemma GatherAssociative(a: Spec, b: Spec, c: Spec)
    ensures Gather(Gather(a, b), c) == Gather(a, Gather(b, c))
  {
    assert c.annotations + (b.annotations + a.annotations) == c.annotations + b.annotations + a.annotations;
    assert c.labels + (b.labels + a.labels) == c.labels + b.labels + a.labels;
    assert a.volumes + b.volumes + c.volumes == a.volumes + (b.volumes + c.volumes);
    assert a.volumeMounts + b.volumeMounts + c.volumeMounts == a.volumeMounts + (b.volumeMounts + c.volumeMounts);
    assert a.tolerations + b.tolerations + c.tolerations == a.tolerations + (b.tolerations + c.tolerations);
    assert a.imagePullSecrets + b.imagePullSecrets + c.imagePullSecrets
        == a.imagePullSecrets + (b.imagePullSecrets + c.imagePullSecrets);
    ResourcesAssociative(a.resources, b.resources, c.resources);
  }

  lemma ResourcesAssociative(a: Resources, b: Resources, c: Resources)
    ensures c.limits + (b.limits + a.limits) == c.limits + b.limits + a.limits
    ensures c.requests + (b.requests + a.requests) == c.requests + b.requests + a.requests
  {
  }

  lemma GatherUnit(s: Spec)
    ensures Gather(s, EMPTY) == s.(livenessProbe := None)
    ensures Gather(EMPTY, s) == s.(livenessProbe := None)
  {
    GatherEmpty(s);
    GatherIntoEmpty(s);
  }

  lemma GatherEmpty(s: Spec)
    ensures Gather(s, EMPTY) == s.(livenessProbe := None)
  {
    assert s.volumes + [] == s.volumes && s.volumeMounts + [] == s.volumeMounts;
    assert s.tolerations + [] == s.tolerations && s.imagePullSecrets + [] == s.imagePullSecrets;
  }

  lemma GatherIntoEmpty(s: Spec)
    ensures Gather(EMPTY, s) == s.(livenessProbe := None)
  {
    assert [] + s.volumes == s.volumes && [] + s.volumeMounts == s.volumeMounts;
    assert [] + s.tolerations == s.tolerations && [] + s.imagePullSecrets == s.imagePullSecrets;
  }

  lemma {:induction false} GatherConcat(a: seq<Spec>, b: seq<Spec>)
    ensures GatherAll(a + b) == Gather(GatherAll(a), GatherAll(b))
    ensures GatherAll(b).livenessProbe == None
  {
    if a == [] {
      assert a + b == b;
      GatherUnit(GatherAll(b));
    } else {
      assert (a + b)[1..] == a[1..] + b;
      GatherConcat(a[1..], b);
      GatherAssociative(a[0], GatherAll(a[1..]), GatherAll(b));
    }
  }

  lemma GatherSnoc(a: seq<Spec>, c: Spec)
    ensures GatherAll(a + [c]) == Gather(GatherAll(a), c)
  {
    GatherConcat(a, [c]);
    assert [c][1..] == [];
    GatherUnit(c);
  }

  lemma FinishGather(a: Spec, b: Spec)
    ensures Finish(Gather(Finish(a), Finish(b))) == Finish(Gather(a, b))
  {
    DedupAbsorbs(a.volumes, b.volumes, VolumeName);
    DedupAbsorbs(a.volumeMounts, b.volumeMounts, MountName);
    DedupAbsorbs(a.imagePullSecrets, b.imagePullSecrets, SecretName);
  }

  /** Merging a concatenation equals merging the merges of its two parts. */
  lemma MergeConcat(a: seq<Spec>, b: seq<Spec>)
    ensures Merged(a + b) == Merged([Merged(a), Merged(b)])
  {
    GatherConcat(a, b);
    FinishGather(GatherAll(a), GatherAll(b));
    MergedPair(Merged(a), Merged(b));
  }

  lemma MergedPair(a: Spec, b: Spec)
    ensures Merged([a, b]) == Finish(Gather(a, b))
  {
    assert [a, b][1..] == [b] && [b][1..] == [];
    GatherUnit(b);
    assert GatherAll([b]) == b.(livenessProbe := None);
    assert Gather(a, b.(livenessProbe := None)) == Gather(a, b);
  }

  lemma MapsAgain(k: Spec, c: Spec)
    ensures var m := Finish(Gather(k, c));
            && m.annotations + k.annotations == m.annotations && m.labels + k.labels == m.labels
            && m.resources.limits + k.resources.limits == m.resources.limits
            && m.resources.requests + k.resources.requests == m.resources.requests
  {
  }

  lemma GatherAgain(k: Spec, c: Spec)
    ensures var m := Finish(Gather(k, c));
            Finish(Gather(k, m)) == m.(tolerations := k.tolerations + m.tolerations)
  {
    var m := Finish(Gather(k, c));
    DedupRepeat(k.volumes, c.volumes, VolumeName);
    DedupRepeat(k.volumeMounts, c.volumeMounts, MountName);
    DedupRepeat(k.imagePullSecrets, c.imagePullSecrets, SecretName);
    MapsAgain(k, c);
  }

  /** Merging a block in a second time only repeats its tolerations. */
  lemma MergeAgain(k: Spec, c: Spec)
    ensures var m := Merged([k, c]);
            Merged([k, m]) == m.(tolerations := k.tolerations + m.tolerations)
  {
    MergedPair(k, c);
    MergedPair(k, Merged([k, c]));
    GatherAgain(k, c);
  }

  /** Merging a block in again is absorbed exactly when the block adds no tolerations. */
  lemma MergeAgainIff(k: Spec, c: Spec)
    ensures Merged([k, Merged([k, c])]) == Merged([k, c]) <==> k.tolerations == []
  {
    MergeAgain(k, c);
    var m := Merged([k, c]);
    assert |k.tolerations + m.tolerations| == |k.tolerations| + |m.tolerations|;
    assert k.tolerations == [] ==> k.tolerations + m.tolerations == m.tolerations;
  }
}
