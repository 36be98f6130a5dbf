/** What a pass keeps of a deployment that exists, and when the passes come to rest. */
module DeploymentLaws {
  import opened Text
  import opened Arguments
  import opened Diff
  import opened Inventories
  import opened Convergence

  // --- Visibility --------------------------------------------------------------------------

  /** client.MatchingLabels */
  predicate Matches(selector: Labels, labels: Labels) {
    forall k :: k in selector ==> k in labels && labels[k] == selector[k]
  }

  function DeploymentIn(ns: string, selector: Labels): Deployment -> bool {
    (d: Deployment) => d.ns == ns && Matches(selector, d.labels)
  }

  function ServiceIn(ns: string, selector: Labels): Service -> bool {
    (d: Service) => d.ns == ns && Matches(selector, d.labels)
  }

  lemma DeploymentsLawful(ns: string, selector: Labels)
    ensures Lawful(DEPLOYMENTS, DeploymentIn(ns, selector))
  {
  }

  lemma ServicesLawful(ns: string, selector: Labels)
    ensures Lawful(SERVICES, ServiceIn(ns, selector))
  {
  }

  // --- The goal of a pass, field by field --------------------------------------------------

  /**
   Desired objects are there, fitting what existed at their key; what is selected besides them is
   gone, the rest stays.
   */
  ghost predicate Goal<T(!new)>(fits: (T, T, T) -> bool, selected: T -> bool, store: Store<T>, want: map<string, T>,
      r: Store<T>) {
    && (forall k :: k in want ==> k in r && if k in store then fits(store[k], want[k], r[k]) else r[k] == want[k])
    && forall k :: k !in want ==> (k in r <==> k in store && !selected(store[k])) && (k in r ==> r[k] == store[k])
  }

  /**
   Self-stabilisation of deployments, with what it means for a desired deployment to be in place:
   after any aborted passes, one pass without failures gets through if and only if the desired
   keys were visible, and then the cluster is at its goal.
   */
  lemma DeploymentsReachGoal(ns: string, selector: Labels, store: Store<Deployment>, passes: seq<Pass<Deployment>>,
      final: Store<Deployment>, want: map<string, Deployment>, inv: Inventory<Deployment>)
    requires var selected := DeploymentIn(ns, selector);
             && Keyed(DeploymentKey, store) && Wanted(DEPLOYMENTS, selected, want)
             && Passes(DEPLOYMENTS, selected, store, passes, final)
             && IsInventory(DEPLOYMENTS, Selected(selected, final), want, inv)
    ensures var r := Exec(DeploymentKey, final, Writes(inv));
            && (r.Some? <==> Visible(DeploymentIn(ns, selector), store, want))
            && (r.Some? ==> Goal(DeploymentFits, DeploymentIn(ns, selector), final, want, r.value))
  {
    DeploymentsLawful(ns, selector);
    forall t, v ensures DeploymentFits(t, v, MergeDeployment(t, v)) { MergeFits(t, v); }
    ReachesGoal(DEPLOYMENTS, DeploymentFits, DeploymentIn(ns, selector), store, passes, final, want, inv);
  }

  lemma ReachesGoal<T(!new)>(kind: Kind<T>, fits: (T, T, T) -> bool, selected: T -> bool, store: Store<T>,
      passes: seq<Pass<T>>, final: Store<T>, want: map<string, T>, inv: Inventory<T>)
    requires Lawful(kind, selected) && Keyed(kind.key, store) && Wanted(kind, selected, want)
    requires Passes(kind, selected, store, passes, final) && IsInventory(kind, Selected(selected, final), want, inv)
    requires forall t, v :: fits(t, v, kind.merge(t, v))
    ensures var r := Exec(kind.key, final, Writes(inv));
            (r.Some? <==> Visible(selected, store, want)) && (r.Some? ==> Goal(fits, selected, final, want, r.value))
  {
    SelfStabilising(kind, selected, store, passes, final, want, inv);
    PassesKeep(kind, selected, store, passes, final);
    PassReachesTarget(kind, selected, final, want, inv);
    TargetIsGoal(kind, fits, selected, final, want);
  }

  lemma TargetIsGoal<T(!new)>(kind: Kind<T>, fits: (T, T, T) -> bool, selected: T -> bool, store: Store<T>,
      want: map<string, T>)
    requires forall t, v :: fits(t, v, kind.merge(t, v))
    ensures Goal(fits, selected, store, want, Target(kind, selected, store, want))
  {
    var r := Target(kind, selected, store, want);
    forall k | k in want ensures k in r && if k in store then fits(store[k], want[k], r[k]) else r[k] == want[k] {
      if k in store { assert fits(store[k], want[k], kind.merge(store[k], want[k])); }
    }
  }

  lemma ServicesReachGoal(ns: string, selector: Labels, store: Store<Service>, passes: seq<Pass<Service>>,
      final: Store<Service>, want: map<string, Service>, inv: Inventory<Service>)
    requires var selected := ServiceIn(ns, selector);
             && Keyed(ServiceKey, store) && Wanted(SERVICES, selected, want)
             && Passes(SERVICES, selected, store, passes, final)
             && IsInventory(SERVICES, Selected(selected, final), want, inv)
    ensures var r := Exec(ServiceKey, final, Writes(inv));
            && (r.Some? <==> Visible(ServiceIn(ns, selector), store, want))
            && (r.Some? ==> Goal(ServiceFits, ServiceIn(ns, selector), final, want, r.value))
  {
    ServicesLawful(ns, selector);
    forall t, v ensures ServiceFits(t, v, MergeService(t, v)) { ServiceMergeFits(t, v); }
    ReachesGoal(SERVICES, ServiceFits, ServiceIn(ns, selector), store, passes, final, want, inv);
  }

  // --- The cookie secret -------------------------------------------------------------------

  /** Some argument starts like the cookie flag. */
  ghost predicate Flagged(args: seq<string>) { exists i :: 0 <= i < |args| && COOKIE <= args[i] }

  /** The first proxy container has such an argument. */
  ghost predicate FirstFlagged(containers: seq<Container>) {
    containers != [] && if containers[0].name == OAUTH then Flagged(containers[0].args)
        else FirstFlagged(containers[1..])
  }

  /** No proxy container has one. */
  ghost predicate Unflagged(containers: seq<Container>) {
    forall i :: 0 <= i < |containers| && containers[i].name == OAUTH ==> !Flagged(containers[i].args)
  }

  lemma CookieSetStarts(arg: string)
    requires COOKIE_SET <= arg
    ensures COOKIE <= arg && arg != ""
  {
    assert arg[..|COOKIE|] == COOKIE_SET[..|COOKIE|] == COOKIE;
  }

  lemma FoundCookie(args: seq<string>, arg: string)
    requires COOKIE_SET <= arg
    ensures FindItem(COOKIE_SET, Replaced(COOKIE, arg, args)) == if Flagged(args) then arg else ""
  {
    CookieSetStarts(arg);
    var r := Replaced(COOKIE, arg, args);
    forall a | a in r && COOKIE_SET <= a ensures a == arg && Flagged(args) {
      CookieSetStarts(a);
      var i :| 0 <= i < |r| && r[i] == a;
    }
    if Flagged(args) {
      var i :| 0 <= i < |args| && COOKIE <= args[i];
      assert r[i] == arg;
      FindItemUnique(COOKIE_SET, r, arg);
    } else {
      FindItemAbsent(COOKIE_SET, r);
    }
  }

  lemma {:induction false} CookieAfter(containers: seq<Container>, arg: string)
    requires COOKIE_SET <= arg
    ensures CookieArg(WithCookie(containers, arg)) == if FirstFlagged(containers) then arg else ""
  {
    if containers != [] {
      var r := WithCookie(containers, arg);
      if containers[0].name == OAUTH {
        FoundCookie(containers[0].args, arg);
      } else {
        assert r[1..] == WithCookie(containers[1..], arg);
        CookieAfter(containers[1..], arg);
      }
    }
  }

  lemma {:induction false} CookieArgShape(containers: seq<Container>)
    ensures CookieArg(containers) == "" || COOKIE_SET <= CookieArg(containers)
    ensures CookieArg(containers) != "" ==> FirstFlagged(containers)
  {
    if containers != [] {
      if containers[0].name == OAUTH {
        var args := containers[0].args;
        if forall a :: a in args ==> !(COOKIE_SET <= a) {
          FindItemAbsent(COOKIE_SET, args);
        } else {
          FindItemFound(COOKIE_SET, args);
          var found := FindItem(COOKIE_SET, args);
          assert found == CookieArg(containers) && COOKIE_SET <= found;
          CookieSetStarts(found);
          var i :| 0 <= i < |args| && args[i] == found;
        }
      } else {
        CookieArgShape(containers[1..]);
      }
    }
  }

  /** The stored cookie wins exactly where the desired deployment has a place for it. */
  lemma CookieKept(t: Deployment, v: Deployment)
    ensures var was := CookieArg(t.spec.containers);
            CookieArg(MergeDeployment(t, v).spec.containers) ==
              if was == "" then CookieArg(v.spec.containers)
              else if FirstFlagged(v.spec.containers) then was else ""
  {
    CookieArgShape(t.spec.containers);
    if CookieArg(t.spec.containers) != "" { CookieAfter(v.spec.containers, CookieArg(t.spec.containers)); }
  }

  lemma WithCookieTwice(containers: seq<Container>, a: string, b: string)
    requires COOKIE <= a
    ensures WithCookie(WithCookie(containers, a), b) == WithCookie(containers, b)
  {
    var x, y := WithCookie(WithCookie(containers, a), b), WithCookie(containers, b);
    forall i | 0 <= i < |containers| ensures x[i] == y[i] {
      if containers[i].name == OAUTH { assert x[i].args == y[i].args; }
    }
  }

  /** Every cookie-like argument of every proxy container is `a`. */
  ghost predicate AllCookies(containers: seq<Container>, a: string) {
    forall i, j :: 0 <= i < |containers| && containers[i].name == OAUTH && 0 <= j < |containers[i].args| ==>
      COOKIE <= containers[i].args[j] ==> containers[i].args[j] == a
  }

  lemma WithCookieVoidIff(containers: seq<Container>, a: string)
    ensures WithCookie(containers, a) == containers <==> AllCookies(containers, a)
  {
    var r := WithCookie(containers, a);
    if AllCookies(containers, a) {
      forall i | 0 <= i < |containers| ensures r[i] == containers[i] {
        if containers[i].name == OAUTH { assert r[i].args == containers[i].args; }
      }
    } else {
      var i, j :| 0 <= i < |containers| && containers[i].name == OAUTH && 0 <= j < |containers[i].args|
                  && COOKIE <= containers[i].args[j] && containers[i].args[j] != a;
      assert r[i].args[j] == a;
    }
  }

  // --- Twins: desired deployments that differ in their secrets -----------------------------

  /** The containers with every cookie-like argument of a proxy blanked out. */
  function Blank(containers: seq<Container>): seq<Container> { WithCookie(containers, COOKIE) }

  function Blanked(v: Deployment): Deployment { v.(spec := v.spec.(containers := Blank(v.spec.containers))) }

  /** Two reconciliations' wishes: they agree except in cookie-like arguments of proxies. */
  ghost predicate Twins(v: Deployment, w: Deployment) { Blanked(v) == Blanked(w) }

  /** A cookie is set in the first proxy container, or no proxy mentions one. */
  ghost predicate Led(v: Deployment) { CookieArg(v.spec.containers) != "" || Unflagged(v.spec.containers) }

  /** All cookie-like arguments are the cookie that is set. */
  ghost predicate Tidy(v: Deployment) { AllCookies(v.spec.containers, CookieArg(v.spec.containers)) }

  lemma TwinContainers(c: seq<Container>, d: seq<Container>, a: string)
    requires Blank(c) == Blank(d)
    ensures WithCookie(c, a) == WithCookie(d, a)
    ensures Unflagged(c) ==> c == d
  {
    WithCookieTwice(c, COOKIE, a);
    WithCookieTwice(d, COOKIE, a);
    if Unflagged(c) {
      UnflaggedBlank(c);
      BlankUnflagged(c, d);
      UnflaggedBlank(d);
    }
  }

  lemma UnflaggedBlank(c: seq<Container>)
    requires Unflagged(c)
    ensures forall a :: AllCookies(c, a)
    ensures Blank(c) == c
  {
    WithCookieVoidIff(c, COOKIE);
  }

  lemma BlankUnflagged(c: seq<Container>, d: seq<Container>)
    requires Blank(c) == Blank(d) && Unflagged(c)
    ensures Unflagged(d)
  {
    UnflaggedBlank(c);
    forall i | 0 <= i < |d| && d[i].name == OAUTH ensures !Flagged(d[i].args) {
      assert Blank(d)[i] == c[i];
      BlankFlaggedArgs(d[i].args);
    }
  }

  /** Merging the wishes of the next reconciliation in can only change the containers. */
  lemma MergeTwin(t: Deployment, v: Deployment, w: Deployment)
    requires Twins(v, w)
    ensures var u := MergeDeployment(t, v);
            MergeDeployment(u, w) == u.(spec := u.spec.(containers := Propagated(u.spec.containers, w.spec.containers)))
    ensures MergeDeployment(v, w) == v.(spec := v.spec.(containers := Propagated(v.spec.containers, w.spec.containers)))
  {
    assert Blanked(v).labels == v.labels == w.labels && Blanked(v).annotations == v.annotations == w.annotations;
    assert Blanked(v).owners == v.owners == w.owners;
    assert Blanked(v).spec.replicas == v.spec.replicas == w.spec.replicas;
    assert Blanked(v).spec.rest == v.spec.rest == w.spec.rest;
    var u := MergeDeployment(t, v);
    assert u.labels + w.labels == u.labels && u.annotations + w.annotations == u.annotations;
    assert v.labels + w.labels == v.labels && v.annotations + w.annotations == v.annotations;
  }

  /**
   A deployment that was just created is left as it is by the next reconciliation exactly when
   all its cookie-like arguments are its cookie. Another one, such as "--cookie-secret-file",
   is overwritten.
   */
  lemma CreatedSettlesIff(v: Deployment, w: Deployment)
    requires Twins(v, w) && Led(v)
    ensures MergeDeployment(v, w) == v <==> Tidy(v)
  {
    var c, d := v.spec.containers, w.spec.containers;
    MergeTwin(v, v, w);
    TwinContainers(c, d, CookieArg(c));
    WithCookieVoidIff(c, CookieArg(c));
    if CookieArg(c) == "" { UnflaggedBlank(c); }
  }

  /** The same for a deployment that was updated: a cookie stored before settles it as well. */
  lemma UpdatedSettlesIff(t: Deployment, v: Deployment, w: Deployment)
    requires Twins(v, w) && Led(v)
    ensures var u := MergeDeployment(t, v);
            MergeDeployment(u, w) == u <==> CookieArg(t.spec.containers) != "" || Tidy(v)
  {
    var u := MergeDeployment(t, v);
    var k := CookieArg(t.spec.containers);
    var c, d := v.spec.containers, w.spec.containers;
    MergeTwin(t, v, w);
    CookieArgShape(t.spec.containers);
    CookieArgShape(c);
    if k == "" {
      MergeTwin(v, v, w);
      CreatedSettlesIff(v, w);
    } else {
      CookieSetStarts(k);
      CookieAfter(c, k);
      TwinContainers(c, d, k);
      if Unflagged(c) {
        UnflaggedBlank(c);
        WithCookieVoidIff(c, k);
      }
    }
  }

  lemma LedTwin(t: Deployment, v: Deployment, w: Deployment)
    requires Twins(v, w) && Led(v)
    ensures FirstFlagged(w.spec.containers) || Unflagged(w.spec.containers)
    ensures var u := MergeDeployment(t, v); CookieArg(u.spec.containers) != "" || Unflagged(v.spec.containers)
  {
    var c, d := v.spec.containers, w.spec.containers;
    CookieArgShape(c);
    CookieArgShape(t.spec.containers);
    if CookieArg(t.spec.containers) != "" {
      CookieSetStarts(CookieArg(t.spec.containers));
      CookieAfter(c, CookieArg(t.spec.containers));
    }
    if Unflagged(c) {
      BlankUnflagged(c, d);
    } else {
      BlankFlagged(c);
      BlankFlagged(d);
    }
  }

  lemma {:induction false} BlankFlagged(c: seq<Container>)
    ensures FirstFlagged(Blank(c)) <==> FirstFlagged(c)
  {
    if c != [] {
      if c[0].name == OAUTH {
        BlankFlaggedArgs(c[0].args);
      } else {
        assert Blank(c)[1..] == Blank(c[1..]);
        BlankFlagged(c[1..]);
      }
    }
  }

  lemma BlankFlaggedArgs(args: seq<string>)
    ensures Flagged(Replaced(COOKIE, COOKIE, args)) <==> Flagged(args)
  {
    var r := Replaced(COOKIE, COOKIE, args);
    if Flagged(args) {
      var i :| 0 <= i < |args| && COOKIE <= args[i];
      assert COOKIE <= r[i];
    }
  }

  /** From the third reconciliation on nothing changes, whatever the arguments and the secrets. */
  lemma ThirdPassSettles(t: Deployment, v: Deployment, w: Deployment, y: Deployment)
    requires Twins(v, w) && Twins(v, y) && Led(v) && Led(w)
    ensures var x := MergeDeployment(MergeDeployment(t, v), w); MergeDeployment(x, y) == x
    ensures var x := MergeDeployment(v, w); MergeDeployment(x, y) == x
  {
    var u := MergeDeployment(t, v);
    assert Twins(w, y);
    LedTwin(t, v, w);
    UpdatedSettlesIff(u, w, y);
    UpdatedSettlesIff(v, w, y);
    if Unflagged(v.spec.containers) {
      BlankUnflagged(v.spec.containers, w.spec.containers);
      UnflaggedBlank(w.spec.containers);
    }
  }

  /** The cookie that the first reconciliation leaves survives every later one. */
  lemma CookieStays(t: Deployment, v: Deployment, w: Deployment)
    requires Twins(v, w) && Led(v)
    ensures var u := MergeDeployment(t, v);
            CookieArg(MergeDeployment(u, w).spec.containers) == CookieArg(u.spec.containers)
  {
    var u := MergeDeployment(t, v);
    LedTwin(t, v, w);
    CookieKept(u, w);
    if CookieArg(u.spec.containers) == "" {
      TwinContainers(v.spec.containers, w.spec.containers, "");
      UnflaggedBlank(v.spec.containers);
      WithCookieVoidIff(v.spec.containers, CookieArg(t.spec.containers));
      assert u.spec.containers == v.spec.containers;
    } else if Unflagged(w.spec.containers) {
      UnflaggedCookie(w.spec.containers);
      BlankUnflagged(w.spec.containers, v.spec.containers);
      UnflaggedCookie(v.spec.containers);
      UnflaggedBlank(v.spec.containers);
      WithCookieVoidIff(v.spec.containers, CookieArg(t.spec.containers));
      assert false;
    }
  }

  lemma UnflaggedCookie(c: seq<Container>)
    requires Unflagged(c)
    ensures CookieArg(c) == "" && !FirstFlagged(c)
  {
    CookieArgShape(c);
    UnflaggedFirst(c);
  }

  lemma {:induction false} UnflaggedFirst(c: seq<Container>)
    requires Unflagged(c)
    ensures !FirstFlagged(c)
  {
    if c != [] {
      assert forall i :: 0 <= i < |c[1..]| ==> c[1..][i] == c[i + 1];
      UnflaggedFirst(c[1..]);
    }
  }

  /** The input at which the second pass is not void: a proxy with a cookie file beside the generated cookie. */
  lemma CookieFileIsOverwritten(v: Deployment, w: Deployment, a: string, b: string)
    requires COOKIE_SET <= a && COOKIE_SET <= b
    requires v.spec.containers == [Container(OAUTH, [COOKIE + "-file=/f", a], "")]
    requires w == v.(spec := v.spec.(containers := [Container(OAUTH, [COOKIE + "-file=/f", b], "")]))
    ensures Twins(v, w) && Led(v) && !Tidy(v)
    ensures MergeDeployment(v, w).spec.containers == [Container(OAUTH, [a, a], "")]
    ensures MergeDeployment(v, w) != v
  {
    var file := COOKIE + "-file=/f";
    CookieSetStarts(a);
    CookieSetStarts(b);
    assert file[|COOKIE|] == '-' && COOKIE_SET[|COOKIE|] == '=';
    assert COOKIE <= file && !(COOKIE_SET <= file);
    assert [file, a][1..] == [a] && [a][1..] == [];
    assert FindItem(COOKIE_SET, [a]) == a;
    assert CookieArg(v.spec.containers) == a;
    assert Replaced(COOKIE, COOKIE, [file, a]) == [COOKIE, COOKIE] == Replaced(COOKIE, COOKIE, [file, b]);
    assert Blank(v.spec.containers) == [Container(OAUTH, [COOKIE, COOKIE], "")] == Blank(w.spec.containers);
    assert Replaced(COOKIE, a, [file, b]) == [a, a];
    assert file != a;
    assert v.spec.containers[0].args[0] == file;
  }

  /** The stored deployment after one reconciliation for each of the wishes. */
  function Reconciled(t: Deployment, wishes: seq<Deployment>): Deployment {
    if wishes == [] then t else MergeDeployment(Reconciled(t, wishes[..|wishes| - 1]), wishes[|wishes| - 1])
  }

  /** Wishes of the same instance, made with any secrets. */
  ghost predicate OfOneInstance(wishes: seq<Deployment>) {
    (forall i, j :: 0 <= i < |wishes| && 0 <= j < |wishes| ==> Twins(wishes[i], wishes[j]))
    && forall i :: 0 <= i < |wishes| ==> Led(wishes[i])
  }

  /**
   Any number of reconciliations: the second one decides, and the first one does exactly when a
   cookie was stored before it or its wishes are tidy. The cookie is the first one in any case.
   */
  lemma {:induction false} FirstSecretSurvives(t: Deployment, wishes: seq<Deployment>)
    requires |wishes| >= 2 && OfOneInstance(wishes)
    ensures var u := MergeDeployment(t, wishes[0]);
            var r := Reconciled(t, wishes);
            && r == MergeDeployment(u, wishes[1])
            && (r == u <==> CookieArg(t.spec.containers) != "" || Tidy(wishes[0]))
            && CookieArg(r.spec.containers) == CookieArg(u.spec.containers)
  {
    var n := |wishes| - 1;
    if n == 1 {
      assert wishes[..1][..0] == [] && wishes[..1][0] == wishes[0];
      assert Reconciled(t, wishes[..1]) == MergeDeployment(t, wishes[0]);
      UpdatedSettlesIff(t, wishes[0], wishes[1]);
      CookieStays(t, wishes[0], wishes[1]);
    } else {
      FirstSecretSurvives(t, wishes[..n]);
      ThirdPassSettles(t, wishes[0], wishes[1], wishes[n]);
    }
  }

  // --- Passes ------------------------------------------------------------------------------

  /** The desired deployments of two reconciliations of one instance. */
  ghost predicate SameWishes(want: map<string, Deployment>, again: map<string, Deployment>) {
    && want.Keys == again.Keys
    && forall k :: k in want ==> Twins(want[k], again[k]) && Led(want[k]) && Led(again[k])
  }

  /** The pass that starts at `store` leaves a deployment the next one does not change. */
  ghost predicate SettlesAtOnce(store: Store<Deployment>, want: map<string, Deployment>) {
    forall k :: k in want ==> (k in store && CookieArg(store[k].spec.containers) != "") || Tidy(want[k])
  }

  lemma TargetSettlesIff(selected: Deployment -> bool, store: Store<Deployment>, want: map<string, Deployment>,
      again: map<string, Deployment>, k: string)
    requires SameWishes(want, again) && k in want
    ensures var r := Target(DEPLOYMENTS, selected, store, want);
            MergeDeployment(r[k], again[k]) == r[k] <==>
              (k in store && CookieArg(store[k].spec.containers) != "") || Tidy(want[k])
  {
    if k in store { UpdatedSettlesIff(store[k], want[k], again[k]); } else { CreatedSettlesIff(want[k], again[k]); }
  }

  lemma UnchangedIff(selected: Deployment -> bool, r: Store<Deployment>, again: map<string, Deployment>)
    requires Selected(selected, r).Keys == again.Keys
    ensures Target(DEPLOYMENTS, selected, r, again) == r <==>
              forall k :: k in again ==> MergeDeployment(r[k], again[k]) == r[k]
  {
    var x := Target(DEPLOYMENTS, selected, r, again);
    assert forall k :: k in again ==>
             k in Selected(selected, r) && k in r && k in x && x[k] == MergeDeployment(r[k], again[k]);
    assert forall k :: k in r && k !in again ==> k !in Selected(selected, r) && k in x && x[k] == r[k];
    assert x.Keys == r.Keys;
  }

  /** A pass without failures leaves exactly the desired keys selected. */
  lemma PassSucceeds(ns: string, selector: Labels, store: Store<Deployment>, want: map<string, Deployment>,
      inv: Inventory<Deployment>, r: Store<Deployment>)
    requires var selected := DeploymentIn(ns, selector);
             && Keyed(DeploymentKey, store) && Visible(selected, store, want) && Wanted(DEPLOYMENTS, selected, want)
             && IsInventory(DEPLOYMENTS, Selected(selected, store), want, inv)
             && r == Target(DEPLOYMENTS, selected, store, want)
    ensures Exec(DeploymentKey, store, Writes(inv)) == Some(r)
              && Selected(DeploymentIn(ns, selector), r).Keys == want.Keys
  {
    var selected := DeploymentIn(ns, selector);
    DeploymentsLawful(ns, selector);
    PassReachesTarget(DEPLOYMENTS, selected, store, want, inv);
    TargetIsDesired(DEPLOYMENTS, selected, store, want);
  }

  /** A pass over exactly the desired keys creates and deletes nothing. */
  lemma PassUpdatesOnly(selected: Deployment -> bool, r: Store<Deployment>, again: map<string, Deployment>,
      next: Inventory<Deployment>)
    requires Selected(selected, r).Keys == again.Keys && IsInventory(DEPLOYMENTS, Selected(selected, r), again, next)
    ensures next.create == [] && next.delete == []
    ensures Exec(DeploymentKey, r, Writes(next)) == Some(Target(DEPLOYMENTS, selected, r, again))
  {
    NothingToCreateOrDelete(DEPLOYMENTS, Selected(selected, r), again, next);
    AllVisible(selected, r, again);
    PassReachesTarget(DEPLOYMENTS, selected, r, again, next);
  }

  /**
   Convergence of deployments. A pass that meets no failure reaches its goal `r`. The next one,
   with other secrets, creates and deletes nothing, and changes no deployment if and only if each
   had a cookie before or is tidy.
   */
  lemma SecondPassIsVoidIff(ns: string, selector: Labels, store: Store<Deployment>, want: map<string, Deployment>,
      inv: Inventory<Deployment>, r: Store<Deployment>, again: map<string, Deployment>, next: Inventory<Deployment>)
    requires var selected := DeploymentIn(ns, selector);
             && Keyed(DeploymentKey, store) && Visible(selected, store, want) && Wanted(DEPLOYMENTS, selected, want)
             && SameWishes(want, again)
             && IsInventory(DEPLOYMENTS, Selected(selected, store), want, inv)
             && r == Target(DEPLOYMENTS, selected, store, want)
             && IsInventory(DEPLOYMENTS, Selected(selected, r), again, next)
    ensures Exec(DeploymentKey, store, Writes(inv)) == Some(r)
              && Selected(DeploymentIn(ns, selector), r).Keys == want.Keys
    ensures next.create == [] && next.delete == []
    ensures Exec(DeploymentKey, r, Writes(next)) == Some(Target(DEPLOYMENTS, DeploymentIn(ns, selector), r, again))
    ensures Exec(DeploymentKey, r, Writes(next)) == Some(r) <==> SettlesAtOnce(store, want)
  {
    PassSucceeds(ns, selector, store, want, inv, r);
    PassUpdatesOnly(DeploymentIn(ns, selector), r, again, next);
    UnchangedAfterIff(DeploymentIn(ns, selector), store, want, again);
  }

  lemma UnchangedAfterIff(selected: Deployment -> bool, store: Store<Deployment>, want: map<string, Deployment>,
      again: map<string, Deployment>)
    requires SameWishes(want, again) && Selected(selected, Target(DEPLOYMENTS, selected, store, want)).Keys
               == again.Keys
    ensures var r := Target(DEPLOYMENTS, selected, store, want);
            Target(DEPLOYMENTS, selected, r, again) == r <==> SettlesAtOnce(store, want)
  {
    var r := Target(DEPLOYMENTS, selected, store, want);
    UnchangedIff(selected, r, again);
    forall k | k in want
      ensures MergeDeployment(r[k], again[k]) == r[k] <==>
                (k in store && CookieArg(store[k].spec.containers) != "") || Tidy(want[k])
    {
      TargetSettlesIff(selected, store, want, again, k);
    }
  }

  lemma NothingToCreateOrDelete(kind: Kind<Deployment>, listed: Store<Deployment>, want: map<string, Deployment>,
      inv: Inventory<Deployment>)
    requires listed.Keys == want.Keys && IsInventory(kind, listed, want, inv)
    ensures inv.create == [] && inv.delete == []
  {
    assert want - listed.Keys == map[] && listed - want.Keys == map[];
  }

  lemma AllVisible(selected: Deployment -> bool, r: Store<Deployment>, want: map<string, Deployment>)
    requires Selected(selected, r).Keys == want.Keys
    ensures Visible(selected, r, want)
  {
    assert forall k :: k in want ==> k in Selected(selected, r);
  }

  /** In any case nothing changes from the third pass on. */
  lemma ThirdPassIsVoid(ns: string, selector: Labels, store: Store<Deployment>, want: map<string, Deployment>,
      again: map<string, Deployment>, x: Store<Deployment>, third: map<string, Deployment>, last: Inventory<Deployment>)
    requires var selected := DeploymentIn(ns, selector);
             && Keyed(DeploymentKey, store) && Visible(selected, store, want)
             && Wanted(DEPLOYMENTS, selected, want) && Wanted(DEPLOYMENTS, selected, again)
             && SameWishes(want, again) && SameWishes(want, third)
             && x == Target(DEPLOYMENTS, selected, Target(DEPLOYMENTS, selected, store, want), again)
             && IsInventory(DEPLOYMENTS, Selected(selected, x), third, last)
    ensures Selected(DeploymentIn(ns, selector), x).Keys == want.Keys
    ensures last.create == [] && last.delete == []
    ensures forall u :: u in last.update ==> DeploymentKey(u) in x && x[DeploymentKey(u)] == u
    ensures Exec(DeploymentKey, x, Writes(last)) == Some(x)
  {
    ThirdAtRest(ns, selector, store, want, again, third);
    PassAtRest(DEPLOYMENTS, DeploymentIn(ns, selector), x, third, last);
  }

  lemma ThirdAtRest(ns: string, selector: Labels, store: Store<Deployment>, want: map<string, Deployment>,
      again: map<string, Deployment>, third: map<string, Deployment>)
    requires var selected := DeploymentIn(ns, selector);
             && Keyed(DeploymentKey, store) && Visible(selected, store, want)
             && Wanted(DEPLOYMENTS, selected, want) && Wanted(DEPLOYMENTS, selected, again)
             && SameWishes(want, again) && SameWishes(want, third)
    ensures var selected := DeploymentIn(ns, selector);
            var x := Target(DEPLOYMENTS, selected, Target(DEPLOYMENTS, selected, store, want), again);
            Keyed(DeploymentKey, x) && AtRest(DEPLOYMENTS, selected, x, third)
                && Selected(selected, x).Keys == want.Keys
  {
    var selected := DeploymentIn(ns, selector);
    var r := Target(DEPLOYMENTS, selected, store, want);
    var x := Target(DEPLOYMENTS, selected, r, again);
    DeploymentsLawful(ns, selector);
    TargetIsDesired(DEPLOYMENTS, selected, store, want);
    AllVisible(selected, r, again);
    TargetIsDesired(DEPLOYMENTS, selected, r, again);
    forall k | k in third ensures MergeDeployment(x[k], third[k]) == x[k] {
      TwiceMerged(selected, store, want, again, k);
      ThirdPassSettles(if k in store then store[k] else want[k], want[k], again[k], third[k]);
    }
  }

  lemma TwiceMerged(selected: Deployment -> bool, store: Store<Deployment>, want: map<string, Deployment>,
      again: map<string, Deployment>, k: string)
    requires k in want && want.Keys == again.Keys
    ensures var x := Target(DEPLOYMENTS, selected, Target(DEPLOYMENTS, selected, store, want), again);
            k in x && x[k]
                == MergeDeployment(if k in store then MergeDeployment(store[k], want[k]) else want[k], again[k])
  {
  }

  /**
   The same from any state: after any number of passes, each cut short at any write, one pass
   without failures leaves exactly the desired keys selected; the next one has nothing to do if
   and only if each deployment had a cookie before or is tidy, and at the latest the one after
   that has nothing to do. `r` and `x` are the clusters after the first and the second pass.
   */
  lemma DeploymentsConverge(ns: string, selector: Labels, store: Store<Deployment>, passes: seq<Pass<Deployment>>,
      final: Store<Deployment>, want: map<string, Deployment>, inv: Inventory<Deployment>, r: Store<Deployment>,
      again: map<string, Deployment>, next: Inventory<Deployment>, x: Store<Deployment>,
      third: map<string, Deployment>, last: Inventory<Deployment>)
    requires var selected := DeploymentIn(ns, selector);
             && Keyed(DeploymentKey, store) && Visible(selected, store, want)
             && Wanted(DEPLOYMENTS, selected, want) && Wanted(DEPLOYMENTS, selected, again)
             && SameWishes(want, again) && SameWishes(want, third)
             && Passes(DEPLOYMENTS, selected, store, passes, final)
             && IsInventory(DEPLOYMENTS, Selected(selected, final), want, inv)
             && r == Target(DEPLOYMENTS, selected, final, want)
             && IsInventory(DEPLOYMENTS, Selected(selected, r), again, next)
             && x == Target(DEPLOYMENTS, selected, r, again)
             && IsInventory(DEPLOYMENTS, Selected(selected, x), third, last)
    ensures Exec(DeploymentKey, final, Writes(inv)) == Some(r)
              && Selected(DeploymentIn(ns, selector), r).Keys == want.Keys
    ensures next.create == [] && next.delete == [] && Exec(DeploymentKey, r, Writes(next)) == Some(x)
    ensures x == r <==> SettlesAtOnce(final, want)
    ensures last.create == [] && last.delete == [] && Exec(DeploymentKey, x, Writes(last)) == Some(x)
  {
    FinalIsVisible(ns, selector, store, passes, final, want);
    SecondPassIsVoidIff(ns, selector, final, want, inv, r, again, next);
    ThirdPassIsVoid(ns, selector, final, want, again, x, third, last);
  }

  lemma FinalIsVisible(ns: string, selector: Labels, store: Store<Deployment>, passes: seq<Pass<Deployment>>,
      final: Store<Deployment>, want: map<string, Deployment>)
    requires var selected := DeploymentIn(ns, selector);
             && Keyed(DeploymentKey, store) && Visible(selected, store, want)
             && Passes(DEPLOYMENTS, selected, store, passes, final)
    ensures Keyed(DeploymentKey, final) && Visible(DeploymentIn(ns, selector), final, want)
  {
    DeploymentsLawful(ns, selector);
    PassesKeep(DEPLOYMENTS, DeploymentIn(ns, selector), store, passes, final);
  }

  // --- Services ----------------------------------------------------------------------------

  /** A service keeps the address the cluster gave it, and settles after one pass. */
  lemma ServiceSettles(t: Service, v: Service)
    ensures var u := MergeService(t, v);
            && MergeService(u, v) == u
            && (v.clusterIP == "" ==> u.clusterIP == t.clusterIP)
    ensures MergeService(v, v) == v
  {
    var u := MergeService(t, v);
    assert u.labels + v.labels == u.labels && u.annotations + v.annotations == u.annotations;
    assert v.labels + v.labels == v.labels && v.annotations + v.annotations == v.annotations;
  }

  /** What the server makes of the written services: it assigns an address where none was asked for. */
  ghost predicate Assigned(written: Store<Service>, stored: Store<Service>) {
    && written.Keys == stored.Keys
    && forall k :: k in stored ==> AssignedOne(written[k], stored[k])
  }

  ghost predicate AssignedOne(written: Service, stored: Service) {
    && stored == written.(clusterIP := stored.clusterIP)
    && (written.clusterIP != "" ==> stored.clusterIP == written.clusterIP)
  }

  /** Merging the wish in again keeps whatever address the server assigned. */
  lemma AssignedSettles(t: Service, v: Service, stored: Service)
    requires AssignedOne(MergeService(t, v), stored) || AssignedOne(v, stored)
    ensures MergeService(stored, v) == stored
  {
    ServiceSettles(t, v);
    var u := if AssignedOne(v, stored) then v else MergeService(t, v);
    assert MergeService(u, v) == u;
    assert stored.labels == u.labels && stored.annotations == u.annotations;
    assert MergeService(u, v).labels == u.labels && MergeService(u, v).annotations == u.annotations;
  }

  lemma AssignedSelected(selected: Service -> bool, ns: string, selector: Labels, r: Store<Service>,
      stored: Store<Service>)
    requires Assigned(r, stored) && Keyed(ServiceKey, r) && selected == ServiceIn(ns, selector)
    ensures Keyed(ServiceKey, stored) && Selected(selected, stored).Keys == Selected(selected, r).Keys
  {
    forall k | k in stored ensures ServiceKey(stored[k]) == k && selected(stored[k]) == selected(r[k]) {
      AssignedOnlyAddress(r[k], stored[k], ns, selector);
    }
    assert Selected(selected, stored).Keys == Selected(selected, r).Keys;
  }

  lemma AssignedOnlyAddress(written: Service, stored: Service, ns: string, selector: Labels)
    requires AssignedOne(written, stored)
    ensures ServiceKey(stored) == ServiceKey(written)
              && ServiceIn(ns, selector)(stored) == ServiceIn(ns, selector)(written)
  {
  }

  /**
   Convergence of services, on every cluster in which the desired keys are visible: `stored` is
   what a pass without failures leaves, with any addresses that the server assigned. The next
   pass creates and deletes nothing, and no service or address changes.
   */
  lemma SecondServicePassIsVoid(ns: string, selector: Labels, store: Store<Service>, want: map<string, Service>,
      inv: Inventory<Service>, stored: Store<Service>, next: Inventory<Service>)
    requires var selected := ServiceIn(ns, selector);
             && Keyed(ServiceKey, store) && Visible(selected, store, want) && Wanted(SERVICES, selected, want)
             && IsInventory(SERVICES, Selected(selected, store), want, inv)
             && Assigned(Target(SERVICES, selected, store, want), stored)
             && IsInventory(SERVICES, Selected(selected, stored), want, next)
    ensures Exec(ServiceKey, store, Writes(inv)) == Some(Target(SERVICES, ServiceIn(ns, selector), store, want))
    ensures next.create == [] && next.delete == []
    ensures forall u :: u in next.update ==> ServiceKey(u) in stored && stored[ServiceKey(u)] == u
    ensures Exec(ServiceKey, stored, Writes(next)) == Some(stored)
  {
    var selected := ServiceIn(ns, selector);
    ServicesLawful(ns, selector);
    PassReachesTarget(SERVICES, selected, store, want, inv);
    ServicesAtRest(ns, selector, store, want, stored);
    PassAtRest(SERVICES, selected, stored, want, next);
  }

  lemma ServicesAtRest(ns: string, selector: Labels, store: Store<Service>, want: map<string, Service>,
      stored: Store<Service>)
    requires var selected := ServiceIn(ns, selector);
             && Keyed(ServiceKey, store) && Visible(selected, store, want) && Wanted(SERVICES, selected, want)
             && Assigned(Target(SERVICES, selected, store, want), stored)
    ensures Keyed(ServiceKey, stored) && AtRest(SERVICES, ServiceIn(ns, selector), stored, want)
  {
    var selected := ServiceIn(ns, selector);
    var r := Target(SERVICES, selected, store, want);
    ServicesLawful(ns, selector);
    TargetIsDesired(SERVICES, selected, store, want);
    AssignedSelected(selected, ns, selector, r, stored);
    forall k | k in want ensures MergeService(stored[k], want[k]) == stored[k] {
      TargetAt(selected, store, want, k);
      assert AssignedOne(r[k], stored[k]);
      AssignedSettles(if k in store then store[k] else want[k], want[k], stored[k]);
    }
  }

  lemma TargetAt(selected: Service -> bool, store: Store<Service>, want: map<string, Service>, k: string)
    requires k in want
    ensures var r := Target(SERVICES, selected, store, want);
            k in r && r[k] == if k in store then MergeService(store[k], want[k]) else want[k]
  {
  }
}
