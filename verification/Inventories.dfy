/** The inventories of deployments and services (pkg/inventory/deployment.go, service.go). */
module Inventories {
  import opened Text
  import opened Arguments
  import opened Diff

  type Labels = map<string, string>

  // --- Deployments -------------------------------------------------------------------------

  datatype Container = Container(name: string, args: seq<string>, rest: string)

  datatype DeploymentSpec = DeploymentSpec(
    replicas: Option<int>, selector: Labels, containers: seq<Container>, rest: string)

  /** `server` is the metadata and status that only the API server writes. */
  datatype Deployment = Deployment(
    ns: string, name: string, labels: Labels, annotations: Labels, owners: seq<string>, spec: DeploymentSpec,
    server: string)

  const OAUTH := "oauth-proxy"
  const COOKIE := "--cookie-secret"
  const COOKIE_SET := "--cookie-secret="

  /** The cookie argument of the first proxy container; "" when that one has none. */
  function CookieArg(containers: seq<Container>): string {
    if containers == [] then ""
    else if containers[0].name == OAUTH then FindItem(COOKIE_SET, containers[0].args)
    else CookieArg(containers[1..])
  }

  /** Every argument that starts like the cookie flag, in every proxy container, becomes `arg`. */
  function WithCookie(containers: seq<Container>, arg: string): seq<Container> {
    seq(|containers|, i requires 0 <= i < |containers| =>
      if containers[i].name == OAUTH then containers[i].(args := Replaced(COOKIE, arg, containers[i].args))
      else containers[i])
  }

  function Propagated(src: seq<Container>, dst: seq<Container>): seq<Container> {
    if CookieArg(src) == "" then dst else WithCookie(dst, CookieArg(src))
  }

  /** What is written back for a deployment `t` that exists when `v` is desired. */
  function MergeDeployment(t: Deployment, v: Deployment): Deployment {
    t.(labels := t.labels + v.labels, annotations := t.annotations + v.annotations, owners := v.owners,
       spec := v.spec.(replicas := if v.spec.replicas.None? then t.spec.replicas else v.spec.replicas,
                       selector := t.spec.selector,
                       containers := Propagated(t.spec.containers, v.spec.containers)))
  }

  function DeploymentKey(d: Deployment): string { d.ns + "." + d.name }

  const DEPLOYMENTS: Kind<Deployment> := Kind(DeploymentKey, MergeDeployment)

  /** Namespaces hold no dot, so the key tells apart what the API server tells apart. */
  lemma DeploymentKeyInjective(d: Deployment, e: Deployment)
    requires '.' !in d.ns && '.' !in e.ns
    ensures DeploymentKey(d) == DeploymentKey(e) <==> d.ns == e.ns && d.name == e.name
  {
    KeyParts(d.ns, d.name);
    KeyParts(e.ns, e.name);
  }

  lemma KeyParts(ns: string, name: string)
    requires '.' !in ns
    ensures var k := ns + "." + name; IndexOf(k, '.') == |ns| && k[..|ns|] == ns && k[|ns| + 1..] == name
  {
    var k := ns + "." + name;
    assert k[..|ns|] == ns && k[|ns|] == '.';
    IndexOfIs(k, '.', |ns|);
  }

  /** Overwrites entry by entry, in whatever order the map is ranged over. */
  method Overwrite(dst: Labels, src: Labels) returns (r: Labels)
    ensures r == dst + src
  {
    r := dst;
    var todo := src.Keys;
    while todo != {}
      invariant todo <= src.Keys
      invariant r == dst + (src - todo)
      decreases |todo|
    {
      var k :| k in todo;
      r := r[k := src[k]];
      todo := todo - {k};
    }
  }

  method PropagateOAuthCookieSecret(src: seq<Container>, dst: seq<Container>) returns (r: seq<Container>)
    ensures r == Propagated(src, dst)
  {
    r := dst;
    var secretArg := "";
    var n := 0;
    while n < |src|
      invariant n <= |src| && secretArg == ""
      invariant CookieArg(src) == CookieArg(src[n..])
    {
      assert src[n..][0] == src[n] && src[n..][1..] == src[n + 1..];
      if src[n].name == OAUTH {
        secretArg := FindItem(COOKIE_SET, src[n].args);
        break;
      }
      n := n + 1;
    }
    assert secretArg == CookieArg(src);
    if secretArg != "" {
      for i := 0 to |dst|
        invariant |r| == |dst|
        invariant forall j :: 0 <= j < |dst| ==> r[j] == if j < i then WithCookie(dst, secretArg)[j] else dst[j]
      {
        if r[i].name == OAUTH {
          var args := new string[|r[i].args|](j requires 0 <= j < |r[i].args| => r[i].args[j]);
          assert args[..] == r[i].args;
          var found := ReplaceArgument(COOKIE, secretArg, args);
          r := r[i := r[i].(args := args[..])];
        }
      }
    }
  }

  // --- What an update holds, field by field ------------------------------------------------

  /** The written entries win; all others stay. */
  ghost predicate EntriesFit(t: Labels, v: Labels, u: Labels) {
    && (forall k :: k in u <==> k in t || k in v)
    && forall k :: k in u ==> u[k] == if k in v then v[k] else t[k]
  }

  /** The `i`th container is the first proxy. */
  ghost predicate FirstProxy(cs: seq<Container>, i: nat) {
    i < |cs| && cs[i].name == "oauth-proxy" && forall j :: 0 <= j < i ==> cs[j].name != "oauth-proxy"
  }

  /** The `j`th argument is the first that sets a cookie. */
  ghost predicate FirstCookie(args: seq<string>, j: nat) {
    j < |args| && "--cookie-secret=" <= args[j] && forall m :: 0 <= m < j ==> !("--cookie-secret=" <= args[m])
  }

  /** The cookie that is stored: the first one of the first proxy. */
  ghost predicate Stored(cs: seq<Container>, cookie: string) {
    exists i: nat, j: nat :: FirstProxy(cs, i) && FirstCookie(cs[i].args, j) && cookie == cs[i].args[j]
  }

  /** An argument of a proxy: what starts like the cookie flag becomes the stored cookie, if there is one. */
  ghost predicate ArgumentFits(t: seq<Container>, v: string, u: string) {
    && (forall cookie :: Stored(t, cookie) && "--cookie-secret" <= v ==> u == cookie)
    && ((forall cookie :: !Stored(t, cookie)) || !("--cookie-secret" <= v) ==> u == v)
  }

  ghost predicate ContainerFits(t: seq<Container>, v: Container, u: Container) {
    && u.name == v.name && u.rest == v.rest && (v.name != "oauth-proxy" ==> u.args == v.args)
    && |u.args| == |v.args|
    && (v.name == "oauth-proxy" ==> forall j :: 0 <= j < |v.args| ==> ArgumentFits(t, v.args[j], u.args[j]))
  }

  /**
   `u` is written for the existing `t` when `v` is desired: everything is as desired, but for the
   replicas that nobody asks for, the immutable selector, the stored cookie, entries that only
   exist, and what is the server's.
   */
  ghost predicate DeploymentFits(t: Deployment, v: Deployment, u: Deployment) {
    && u.ns == t.ns && u.name == t.name && u.server == t.server && u.owners == v.owners
    && EntriesFit(t.labels, v.labels, u.labels) && EntriesFit(t.annotations, v.annotations, u.annotations)
    && u.spec.replicas == (if v.spec.replicas.Some? then v.spec.replicas else t.spec.replicas)
    && u.spec.selector == t.spec.selector && u.spec.rest == v.spec.rest
    && |u.spec.containers| == |v.spec.containers|
    && forall i :: 0 <= i < |v.spec.containers| ==>
         ContainerFits(t.spec.containers, v.spec.containers[i], u.spec.containers[i])
  }

  lemma {:induction false} CookieArgIs(cs: seq<Container>)
    ensures CookieArg(cs) == "" <==> forall cookie :: !Stored(cs, cookie)
    ensures forall cookie :: Stored(cs, cookie) ==> cookie == CookieArg(cs)
  {
    if cs != [] {
      if cs[0].name == OAUTH {
        FirstItem(cs[0].args);
        assert FirstProxy(cs, 0);
        forall cookie
          ensures Stored(cs, cookie) <==> exists j: nat :: FirstCookie(cs[0].args, j) && cookie == cs[0].args[j]
        {
          if Stored(cs, cookie) {
            var i: nat, j: nat :| FirstProxy(cs, i) && FirstCookie(cs[i].args, j) && cookie == cs[i].args[j];
            assert i == 0;
          }
        }
        if j: nat :| FirstCookie(cs[0].args, j) { assert Stored(cs, cs[0].args[j]) && cs[0].args[j] != ""; }
      } else {
        CookieArgIs(cs[1..]);
        forall cookie ensures Stored(cs, cookie) <==> Stored(cs[1..], cookie) { StoredBehind(cs, cookie); }
      }
    }
  }

  lemma StoredBehind(cs: seq<Container>, cookie: string)
    requires cs != [] && cs[0].name != "oauth-proxy"
    ensures Stored(cs, cookie) <==> Stored(cs[1..], cookie)
  {
    assert forall m :: 0 < m < |cs| ==> cs[m] == cs[1..][m - 1];
    if Stored(cs, cookie) {
      var i: nat, j: nat :| FirstProxy(cs, i) && FirstCookie(cs[i].args, j) && cookie == cs[i].args[j];
      assert FirstProxy(cs[1..], i - 1) && cs[1..][i - 1] == cs[i];
    }
    if Stored(cs[1..], cookie) {
      var i: nat, j: nat :| FirstProxy(cs[1..], i) && FirstCookie(cs[1..][i].args, j) && cookie == cs[1..][i].args[j];
      assert FirstProxy(cs, i + 1) && cs[i + 1] == cs[1..][i];
    }
  }

  lemma {:induction false} FirstItem(args: seq<string>)
    ensures FindItem("--cookie-secret=", args) == "" <==> forall j: nat :: !FirstCookie(args, j)
    ensures forall j: nat :: FirstCookie(args, j) ==> args[j] == FindItem("--cookie-secret=", args)
  {
    if args != [] {
      assert forall m :: 0 < m < |args| ==> args[m] == args[1..][m - 1];
      if "--cookie-secret=" <= args[0] {
        assert FirstCookie(args, 0) && args[0] != "";
      } else {
        FirstItem(args[1..]);
        forall j: nat ensures FirstCookie(args, j) <==> j > 0 && FirstCookie(args[1..], j - 1) { }
        if j: nat :| FirstCookie(args[1..], j) { assert FirstCookie(args, j + 1); }
      }
    }
  }

  lemma MergeFits(t: Deployment, v: Deployment)
    ensures DeploymentFits(t, v, MergeDeployment(t, v))
  {
    var u := MergeDeployment(t, v);
    CookieArgIs(t.spec.containers);
    forall i | 0 <= i < |v.spec.containers|
      ensures ContainerFits(t.spec.containers, v.spec.containers[i], u.spec.containers[i])
    {
      ArgumentsFit(t.spec.containers, v.spec.containers, i);
    }
  }

  lemma ArgumentsFit(t: seq<Container>, v: seq<Container>, i: nat)
    requires i < |v| && (CookieArg(t) == "" <==> forall cookie :: !Stored(t, cookie))
    requires forall cookie :: Stored(t, cookie) ==> cookie == CookieArg(t)
    ensures |Propagated(t, v)| == |v| && ContainerFits(t, v[i], Propagated(t, v)[i])
  {
  }

  // --- What an inventory holds -------------------------------------------------------------

  /** Of the objects with its key, `x` is the last in the list. */
  ghost predicate Last<T(!new)>(key: T -> string, xs: seq<T>, x: T) { exists i: nat :: LastAt(key, xs, x, i) }

  ghost predicate LastAt<T(!new)>(key: T -> string, xs: seq<T>, x: T, i: nat) {
    i < |xs| && xs[i] == x && forall j :: i < j < |xs| ==> key(xs[j]) != key(x)
  }

  ghost predicate Keys<T(!new)>(key: T -> string, xs: seq<T>, k: string) { exists x :: x in xs && key(x) == k }

  /** No two objects have the same key. */
  ghost predicate KeysDiffer<T>(key: T -> string, xs: seq<T>) {
    forall i, j :: 0 <= i < j < |xs| ==> key(xs[i]) != key(xs[j])
  }

  /** Each object that is here with no object of its key there, once. */
  ghost predicate OnlyHere<T(!new)>(key: T -> string, here: seq<T>, there: seq<T>, xs: seq<T>) {
    && (forall x :: x in xs <==> Last(key, here, x) && !Keys(key, there, key(x)))
    && KeysDiffer(key, xs)
  }

  /** `u` fits an existing and a desired object of its key. */
  ghost predicate FitsSome<T(!new)>(key: T -> string, fits: (T, T, T) -> bool, existing: seq<T>, desired: seq<T>,
      u: T) {
    exists t, v :: Last(key, existing, t) && Last(key, desired, v) && key(t) == key(v) == key(u) && fits(t, v, u)
  }

  /** One of the updates fits the two objects. */
  ghost predicate Updated<T(!new)>(key: T -> string, fits: (T, T, T) -> bool, update: seq<T>, t: T, v: T) {
    exists u :: u in update && key(u) == key(t) && fits(t, v, u)
  }

  /**
   Created is what is only desired, deleted what only exists, and every common key has one update
   that fits the two objects.
   */
  ghost predicate InventoryFits<T(!new)>(key: T -> string, fits: (T, T, T) -> bool, existing: seq<T>, desired: seq<T>,
      inv: Inventory<T>) {
    && OnlyHere(key, desired, existing, inv.create) && OnlyHere(key, existing, desired, inv.delete)
    && (forall u :: u in inv.update ==> FitsSome(key, fits, existing, desired, u))
    && (forall t, v :: Last(key, existing, t) && Last(key, desired, v) && key(t) == key(v) ==>
          Updated(key, fits, inv.update, t, v))
    && KeysDiffer(key, inv.update)
  }

  lemma {:induction false} ByKeyIsLast<T(!new)>(key: T -> string, xs: seq<T>)
    ensures forall k :: k in ByKey(key, xs) <==> Keys(key, xs, k)
    ensures forall x :: Last(key, xs, x) <==> key(x) in ByKey(key, xs) && ByKey(key, xs)[key(x)] == x
  {
    if xs != [] {
      var n := |xs| - 1;
      var rest, y := xs[..n], xs[n];
      ByKeyIsLast(key, rest);
      assert forall x :: x in xs <==> x in rest || x == y;
      forall k ensures Keys(key, xs, k) <==> Keys(key, rest, k) || k == key(y) {
        if k == key(y) { assert y in xs; }
      }
      forall x ensures Last(key, xs, x) <==> if key(x) == key(y) then x == y else Last(key, rest, x) {
        LastOnly(key, xs, x);
      }
    }
  }

  lemma LastOnly<T(!new)>(key: T -> string, xs: seq<T>, x: T)
    requires xs != []
    ensures var n := |xs| - 1;
            Last(key, xs, x) <==> if key(x) == key(xs[n]) then x == xs[n] else Last(key, xs[..n], x)
  {
    var n := |xs| - 1;
    if x == xs[n] { assert LastAt(key, xs, x, n); }
    if i: nat :| LastAt(key, xs[..n], x, i) && key(x) != key(xs[n]) {
      assert forall j :: 0 <= j < n ==> xs[..n][j] == xs[j];
      assert LastAt(key, xs, x, i);
    }
    if i: nat :| LastAt(key, xs, x, i) && i < n {
      assert forall j :: 0 <= j < n ==> xs[..n][j] == xs[j];
      assert LastAt(key, xs[..n], x, i);
    }
  }

  lemma {:induction false} EnumeratedDiffer<T>(key: T -> string, s: seq<T>, m: map<string, T>)
    requires Enumerates(key, s, m)
    ensures KeysDiffer(key, s)
    decreases |s|
  {
    if s != [] {
      EnumeratesPrefix(key, s, m);
      var n := |s| - 1;
      EnumeratedDiffer(key, s[..n], ByKey(key, s[..n]));
      forall i, j | 0 <= i < j < |s| ensures key(s[i]) != key(s[j]) {
        assert s[i] == s[..n][i];
        if j < n { assert s[j] == s[..n][j]; } else { KeyIn(key, s[..n], i); }
      }
    }
  }

  lemma KeyIn<T>(key: T -> string, s: seq<T>, i: nat)
    requires i < |s|
    ensures key(s[i]) in ByKey(key, s)
  {
    if i < |s| - 1 { KeyIn(key, s[..|s| - 1], i); }
  }

  lemma OnlyHereSays<T(!new)>(key: T -> string, here: seq<T>, there: seq<T>, xs: seq<T>)
    requires Enumerates(key, xs, ByKey(key, here) - ByKey(key, there).Keys)
    ensures OnlyHere(key, here, there, xs)
  {
    var m := ByKey(key, here) - ByKey(key, there).Keys;
    EnumeratedDiffer(key, xs, m);
    ByKeyIsLast(key, here);
    ByKeyIsLast(key, there);
    forall x ensures x in xs <==> Last(key, here, x) && !Keys(key, there, key(x)) { EnumeratesMembers(key, xs, m, x); }
  }

  lemma FitsItsObjects<T(!new)>(kind: Kind<T>, fits: (T, T, T) -> bool, existing: seq<T>, desired: seq<T>,
      update: seq<T>, u: T)
    requires Enumerates(kind.key, update, Both(kind, ByKey(kind.key, existing), ByKey(kind.key, desired)))
               && u in update
    requires forall t, v :: fits(t, v, kind.merge(t, v))
    ensures FitsSome(kind.key, fits, existing, desired, u)
  {
    var have, want, k := ByKey(kind.key, existing), ByKey(kind.key, desired), kind.key(u);
    EnumeratesMembers(kind.key, update, Both(kind, have, want), u);
    ByKeyIsKeyed(kind.key, existing);
    ByKeyIsKeyed(kind.key, desired);
    ByKeyIsLast(kind.key, existing);
    ByKeyIsLast(kind.key, desired);
    assert fits(have[k], want[k], kind.merge(have[k], want[k]));
  }

  lemma UpdatedItsObjects<T(!new)>(kind: Kind<T>, fits: (T, T, T) -> bool, existing: seq<T>, desired: seq<T>,
      update: seq<T>, t: T, v: T)
    requires Enumerates(kind.key, update, Both(kind, ByKey(kind.key, existing), ByKey(kind.key, desired)))
    requires fits(t, v, kind.merge(t, v)) && kind.key(kind.merge(t, v)) == kind.key(t) == kind.key(v)
    requires Last(kind.key, existing, t) && Last(kind.key, desired, v)
    ensures Updated(kind.key, fits, update, t, v)
  {
    ByKeyIsLast(kind.key, existing);
    ByKeyIsLast(kind.key, desired);
    EnumeratesMembers(kind.key, update, Both(kind, ByKey(kind.key, existing), ByKey(kind.key, desired)),
        kind.merge(t, v));
  }

  /** The inventory drawn from two lists, said of the lists. */
  lemma InventorySays<T(!new)>(kind: Kind<T>, fits: (T, T, T) -> bool, existing: seq<T>, desired: seq<T>,
      inv: Inventory<T>)
    requires IsInventory(kind, ByKey(kind.key, existing), ByKey(kind.key, desired), inv)
    requires forall t, v :: fits(t, v, kind.merge(t, v))
    requires forall t, v :: kind.key(kind.merge(t, v)) == kind.key(t)
    ensures InventoryFits(kind.key, fits, existing, desired, inv)
  {
    OnlyHereSays(kind.key, desired, existing, inv.create);
    OnlyHereSays(kind.key, existing, desired, inv.delete);
    EnumeratedDiffer(kind.key, inv.update, Both(kind, ByKey(kind.key, existing), ByKey(kind.key, desired)));
    forall u | u in inv.update ensures FitsSome(kind.key, fits, existing, desired, u) {
      FitsItsObjects(kind, fits, existing, desired, inv.update, u);
    }
    forall t, v | Last(kind.key, existing, t) && Last(kind.key, desired, v) && kind.key(t) == kind.key(v)
      ensures Updated(kind.key, fits, inv.update, t, v)
    {
      UpdatedItsObjects(kind, fits, existing, desired, inv.update, t, v);
    }
  }

  lemma DeploymentsSay(existing: seq<Deployment>, desired: seq<Deployment>, inv: Inventory<Deployment>)
    requires IsInventory(DEPLOYMENTS, ByKey(DeploymentKey, existing), ByKey(DeploymentKey, desired), inv)
    ensures InventoryFits(DeploymentKey, DeploymentFits, existing, desired, inv)
  {
    forall t, v ensures DeploymentFits(t, v, MergeDeployment(t, v)) { MergeFits(t, v); }
    InventorySays(DEPLOYMENTS, DeploymentFits, existing, desired, inv);
  }

  /** The body of ForDeployments's loop for an object that is both desired and there. */
  method UpdatedDeployment(t: Deployment, desired: Deployment) returns (tp: Deployment)
    ensures tp == MergeDeployment(t, desired)
  {
    var v := desired;
    if t.spec.replicas.Some? && v.spec.replicas.None? {
      v := v.(spec := v.spec.(replicas := t.spec.replicas));
    }
    tp := t.(spec := v.spec);
    var containers := PropagateOAuthCookieSecret(t.spec.containers, v.spec.containers);
    tp := tp.(spec := v.spec.(containers := containers));
    tp := tp.(spec := tp.spec.(selector := t.spec.selector), owners := v.owners);
    var annotations := Overwrite(tp.annotations, v.annotations);
    var labels := Overwrite(tp.labels, v.labels);
    tp := tp.(annotations := annotations, labels := labels);
  }

  method ForDeployments(existing: seq<Deployment>, desired: seq<Deployment>) returns (inv: Inventory<Deployment>)
    ensures IsInventory(DEPLOYMENTS, ByKey(DeploymentKey, existing), ByKey(DeploymentKey, desired), inv)
    ensures InventoryFits(DeploymentKey, DeploymentFits, existing, desired, inv)
  {
    var update: seq<Deployment> := [];
    var mcreate := MapOf(DeploymentKey, desired);
    var mdelete := MapOf(DeploymentKey, existing);
    ghost var have, want := mdelete, mcreate;
    ByKeyIsKeyed(DeploymentKey, existing);
    ByKeyIsKeyed(DeploymentKey, desired);
    ProgressStart(DEPLOYMENTS, have, want);
    var todo := mcreate.Keys;
    while todo != {}
      invariant Progress(DEPLOYMENTS, have, want, todo, mcreate, mdelete, update)
      decreases |todo|
    {
      var k :| k in todo;
      if k in mdelete {
        ProgressUpdate(DEPLOYMENTS, have, want, todo, mcreate, mdelete, update, k);
        var tp := UpdatedDeployment(mdelete[k], mcreate[k]);
        update := update + [tp];
        mcreate := mcreate - {k};
        mdelete := mdelete - {k};
      } else {
        ProgressSkip(DEPLOYMENTS, have, want, todo, mcreate, mdelete, update, k);
      }
      todo := todo - {k};
    }
    ProgressEnd(DEPLOYMENTS, have, want, mcreate, mdelete, update);
    var create := ListOf(DeploymentKey, mcreate);
    var delete := ListOf(DeploymentKey, mdelete);
    inv := Inventory(create, update, delete);
    DeploymentsSay(existing, desired, inv);
  }

  // --- Services ----------------------------------------------------------------------------

  datatype Service = Service(
    ns: string, name: string, labels: Labels, annotations: Labels, owners: seq<string>, clusterIP: string, spec: string,
    server: string)

  function MergeService(t: Service, v: Service): Service {
    t.(labels := t.labels + v.labels, annotations := t.annotations + v.annotations, owners := v.owners,
       clusterIP := if v.clusterIP == "" then t.clusterIP else v.clusterIP, spec := v.spec)
  }

  function ServiceKey(d: Service): string { d.ns + "." + d.name }

  /**
   `u` is written for the existing `t` when `v` is desired: an assigned address stays, unless
   another one is desired.
   */
  ghost predicate ServiceFits(t: Service, v: Service, u: Service) {
    && u.ns == t.ns && u.name == t.name && u.server == t.server && u.owners == v.owners && u.spec == v.spec
    && EntriesFit(t.labels, v.labels, u.labels) && EntriesFit(t.annotations, v.annotations, u.annotations)
    && u.clusterIP == (if v.clusterIP == "" then t.clusterIP else v.clusterIP)
  }

  lemma ServiceMergeFits(t: Service, v: Service)
    ensures ServiceFits(t, v, MergeService(t, v))
  {
  }

  lemma ServicesSay(existing: seq<Service>, desired: seq<Service>, inv: Inventory<Service>)
    requires IsInventory(SERVICES, ByKey(ServiceKey, existing), ByKey(ServiceKey, desired), inv)
    ensures InventoryFits(ServiceKey, ServiceFits, existing, desired, inv)
  {
    forall t, v ensures ServiceFits(t, v, MergeService(t, v)) { ServiceMergeFits(t, v); }
    InventorySays(SERVICES, ServiceFits, existing, desired, inv);
  }

  const SERVICES: Kind<Service> := Kind(ServiceKey, MergeService)

  /** The body of ForServices's loop for an object that is both desired and there. */
  method UpdatedService(t: Service, desired: Service) returns (tp: Service)
    ensures tp == MergeService(t, desired)
  {
    var v := desired;
    if v.clusterIP == "" && |t.clusterIP| > 0 {
      v := v.(clusterIP := t.clusterIP);
    }
    tp := t.(clusterIP := v.clusterIP, spec := v.spec, owners := v.owners);
    var annotations := Overwrite(tp.annotations, v.annotations);
    var labels := Overwrite(tp.labels, v.labels);
    tp := tp.(annotations := annotations, labels := labels);
  }

  method ForServices(existing: seq<Service>, desired: seq<Service>) returns (inv: Inventory<Service>)
    ensures IsInventory(SERVICES, ByKey(ServiceKey, existing), ByKey(ServiceKey, desired), inv)
    ensures InventoryFits(ServiceKey, ServiceFits, existing, desired, inv)
  {
    var update: seq<Service> := [];
    var mdelete := MapOf(ServiceKey, existing);
    var mcreate := MapOf(ServiceKey, desired);
    ghost var have, want := mdelete, mcreate;
    ByKeyIsKeyed(ServiceKey, existing);
    ByKeyIsKeyed(ServiceKey, desired);
    ProgressStart(SERVICES, have, want);
    var todo := mcreate.Keys;
    while todo != {}
      invariant Progress(SERVICES, have, want, todo, mcreate, mdelete, update)
      decreases |todo|
    {
      var k :| k in todo;
      if k in mdelete {
        ProgressUpdate(SERVICES, have, want, todo, mcreate, mdelete, update, k);
        var tp := UpdatedService(mdelete[k], mcreate[k]);
        update := update + [tp];
        mcreate := mcreate - {k};
        mdelete := mdelete - {k};
      } else {
        ProgressSkip(SERVICES, have, want, todo, mcreate, mdelete, update, k);
      }
      todo := todo - {k};
    }
    ProgressEnd(SERVICES, have, want, mcreate, mdelete, update);
    var create := ListOf(ServiceKey, mcreate);
    var delete := ListOf(ServiceKey, mdelete);
    inv := Inventory(create, update, delete);
    ServicesSay(existing, desired, inv);
  }
}
