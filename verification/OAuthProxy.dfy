/**
 The proxy container that every reconciliation builds anew around a generated secret
 (pkg/inject/oauth_proxy.go), and what that means for the passes over the deployments.
 */
module OAuthProxy {
  import opened Text
  import opened Options
  import opened Arguments
  import opened Inventories
  import opened DeploymentLaws

  /** getOAuthProxyContainer: the generated cookie, the other arguments, sorted. */
  function ProxyContainer(secret: string, others: seq<string>, rest: string): Container {
    Container(OAUTH, Sort([COOKIE_SET + secret] + others), rest)
  }

  /** OAuthProxy appends the proxy; `behind` is what is appended later, such as a sidecar. */
  function WithProxy(base: Deployment, p: Container, behind: seq<Container>): Deployment {
    base.(spec := base.spec.(containers := base.spec.containers + [p] + behind))
  }

  ghost predicate NoProxies(cs: seq<Container>) { forall i :: 0 <= i < |cs| ==> cs[i].name != OAUTH }

  // --- Sorting does not move the other arguments -------------------------------------------

  /** A string that does not start with `p` compares with `p` as with everything that does. */
  lemma {:induction false} ComparesLikePrefix(y: string, p: string, x: string)
    requires p <= x && !(p <= y)
    ensures Leq(y, x) <==> Leq(y, p)
    ensures Leq(x, y) <==> Leq(p, y)
  {
    if p != "" && y != "" && y[0] == p[0] {
      assert x[0] == p[0] && p[1..] <= x[1..];
      assert p == [p[0]] + p[1..] && y == [y[0]] + y[1..];
      ComparesLikePrefix(y[1..], p[1..], x[1..]);
    }
  }

  lemma BlankSorted(args: seq<string>)
    requires Sorted(args)
    ensures Sorted(Replaced(COOKIE, COOKIE, args))
  {
    var r := Replaced(COOKIE, COOKIE, args);
    forall i, j | 0 <= i < j < |r| ensures Leq(r[i], r[j]) {
      LeqRefl(COOKIE);
      if COOKIE <= args[i] && !(COOKIE <= args[j]) {
        ComparesLikePrefix(args[j], COOKIE, args[i]);
      } else if !(COOKIE <= args[i]) && COOKIE <= args[j] {
        ComparesLikePrefix(args[i], COOKIE, args[j]);
      }
    }
  }

  lemma {:induction false} ReplacedBag(a: seq<string>, b: seq<string>)
    requires multiset(a) == multiset(b)
    ensures multiset(Replaced(COOKIE, COOKIE, a)) == multiset(Replaced(COOKIE, COOKIE, b))
    decreases |a|
  {
    if a == [] {
      assert |multiset(b)| == 0;
    } else {
      var x, n := a[|a| - 1], |a| - 1;
      assert x in multiset(b);
      var i :| 0 <= i < |b| && b[i] == x;
      var b' := b[..i] + b[i + 1..];
      assert a == a[..n] + [x];
      assert b == b[..i] + [x] + b[i + 1..];
      assert multiset(b) == multiset(b') + multiset{x};
      assert multiset(a) == multiset(a[..n]) + multiset{x};
      assert multiset(a[..n]) == multiset(a) - multiset{x} == multiset(b) - multiset{x} == multiset(b');
      ReplacedBag(a[..n], b');
      ReplacedConcat(a[..n], [x]);
      ReplacedConcat(b[..i], [x]);
      ReplacedConcat(b[..i] + [x], b[i + 1..]);
      ReplacedConcat(b[..i], b[i + 1..]);
    }
  }

  lemma ReplacedConcat(a: seq<string>, b: seq<string>)
    ensures Replaced(COOKIE, COOKIE, a + b) == Replaced(COOKIE, COOKIE, a) + Replaced(COOKIE, COOKIE, b)
  {
  }

  /** The arguments of two reconciliations, blanked out, are the same list. */
  lemma SortedTwins(a: string, b: string, others: seq<string>, again: seq<string>)
    requires COOKIE <= a && COOKIE <= b && multiset(others) == multiset(again)
    ensures Replaced(COOKIE, COOKIE, Sort([a] + others)) == Replaced(COOKIE, COOKIE, Sort([b] + again))
  {
    var s, t := Sort([a] + others), Sort([b] + again);
    SortCorrect([a] + others);
    SortCorrect([b] + again);
    BlankSorted(s);
    BlankSorted(t);
    ReplacedBag(s, [a] + others);
    ReplacedBag(t, [b] + again);
    ReplacedBag(others, again);
    ReplacedConcat([a], others);
    ReplacedConcat([b], again);
    assert Replaced(COOKIE, COOKIE, [a]) == [COOKIE] == Replaced(COOKIE, COOKIE, [b]);
    SortedUnique(Replaced(COOKIE, COOKIE, s), Replaced(COOKIE, COOKIE, t));
  }

  // --- What the passes see -----------------------------------------------------------------

  lemma {:induction false} CookieOfProxy(cs: seq<Container>, p: Container, behind: seq<Container>)
    requires p.name == OAUTH && NoProxies(cs)
    ensures CookieArg(cs + [p] + behind) == FindItem(COOKIE_SET, p.args)
  {
    if cs == [] {
      assert (cs + [p] + behind)[0] == p;
    } else {
      assert (cs + [p] + behind)[1..] == cs[1..] + [p] + behind;
      CookieOfProxy(cs[1..], p, behind);
    }
  }

  lemma GeneratedIsLed(base: Deployment, secret: string, others: seq<string>, rest: string, behind: seq<Container>)
    requires NoProxies(base.spec.containers)
    ensures Led(WithProxy(base, ProxyContainer(secret, others, rest), behind))
  {
    var args := Sort([COOKIE_SET + secret] + others);
    SortCorrect([COOKIE_SET + secret] + others);
    var own := COOKIE_SET + secret;
    assert own in multiset(args);
    assert own in args && COOKIE_SET <= own;
    FindItemFound(COOKIE_SET, args);
    CookieOfProxy(base.spec.containers, ProxyContainer(secret, others, rest), behind);
  }

  /**
   Whatever secrets two reconciliations generate, and in whatever order they print the options,
   their wishes agree except in cookie-like arguments; the laws of DeploymentLaws apply.
   */
  lemma GeneratedAreTwins(base: Deployment, a: string, b: string, others: seq<string>, again: seq<string>, rest: string,
      behind: seq<Container>)
    requires NoProxies(base.spec.containers) && NoProxies(behind) && multiset(others) == multiset(again)
    ensures var v := WithProxy(base, ProxyContainer(a, others, rest), behind);
            var w := WithProxy(base, ProxyContainer(b, again, rest), behind);
            Twins(v, w) && Led(v) && Led(w)
  {
    GeneratedIsLed(base, a, others, rest, behind);
    GeneratedIsLed(base, b, again, rest, behind);
    CookieSetStarts(COOKIE_SET + a);
    CookieSetStarts(COOKIE_SET + b);
    SortedTwins(COOKIE_SET + a, COOKIE_SET + b, others, again);
    BlankProxy(base.spec.containers, ProxyContainer(a, others, rest), behind);
    BlankProxy(base.spec.containers, ProxyContainer(b, again, rest), behind);
  }

  lemma BlankProxy(cs: seq<Container>, p: Container, behind: seq<Container>)
    requires p.name == OAUTH && NoProxies(cs) && NoProxies(behind)
    ensures Blank(cs + [p] + behind) == cs + [p.(args := Replaced(COOKIE, COOKIE, p.args))] + behind
  {
  }

  lemma TidyProxyIff(cs: seq<Container>, p: Container, behind: seq<Container>)
    requires p.name == OAUTH && NoProxies(cs) && NoProxies(behind)
    ensures var all := cs + [p] + behind;
            AllCookies(all, CookieArg(all)) <==> forall x :: x in p.args && COOKIE <= x ==>
                x == FindItem(COOKIE_SET, p.args)
  {
    CookieOfProxy(cs, p, behind);
    OnlyTheProxy(cs, p, behind, FindItem(COOKIE_SET, p.args));
  }

  lemma OnlyTheProxy(cs: seq<Container>, p: Container, behind: seq<Container>, a: string)
    requires p.name == OAUTH && NoProxies(cs) && NoProxies(behind)
    ensures AllCookies(cs + [p] + behind, a) <==> forall x :: x in p.args && COOKIE <= x ==> x == a
  {
    var all := cs + [p] + behind;
    assert all[|cs|] == p;
    if AllCookies(all, a) {
      forall x | x in p.args && COOKIE <= x ensures x == a {
        var j :| 0 <= j < |p.args| && p.args[j] == x;
        assert all[|cs|].args[j] == x;
      }
    }
    if forall x :: x in p.args && COOKIE <= x ==> x == a {
      forall i, j | 0 <= i < |all| && all[i].name == OAUTH && 0 <= j < |all[i].args| && COOKIE <= all[i].args[j]
        ensures all[i].args[j] == a
      {
        assert i == |cs| && all[i].args[j] in p.args;
      }
    }
  }

  lemma AllTheSameIff(own: string, others: seq<string>, args: seq<string>)
    requires COOKIE_SET <= own && multiset(args) == multiset([own] + others)
    ensures (forall x :: x in args && COOKIE <= x ==> x == FindItem(COOKIE_SET, args)) <==>
              forall x :: x in others && COOKIE <= x ==> x == own
  {
    var all := [own] + others;
    CookieSetStarts(own);
    assert forall x :: x in args <==> x in multiset(args);
    assert forall x :: x in all <==> x in multiset(all);
    assert own in all && own in args;
    FindItemFound(COOKIE_SET, args);
    var found := FindItem(COOKIE_SET, args);
    CookieSetStarts(found);
    assert found in all && (found == own || found in others);
    if forall x :: x in args && COOKIE <= x ==> x == found {
      assert own == found;
      forall x | x in others && COOKIE <= x ensures x == own { assert x in all && x in args; }
    }
    if forall x :: x in others && COOKIE <= x ==> x == own {
      assert found == own;
      forall x | x in args && COOKIE <= x ensures x == found { assert x in all && (x == own || x in others); }
    }
  }

  /** A generated proxy is tidy exactly when no other argument starts like the cookie flag, or it repeats the cookie. */
  lemma GeneratedTidyIff(base: Deployment, secret: string, others: seq<string>, rest: string, behind: seq<Container>)
    requires NoProxies(base.spec.containers) && NoProxies(behind)
    ensures Tidy(WithProxy(base, ProxyContainer(secret, others, rest), behind)) <==>
              forall x :: x in others && COOKIE <= x ==> x == COOKIE_SET + secret
  {
    SortCorrect([COOKIE_SET + secret] + others);
    TidyProxyIff(base.spec.containers, ProxyContainer(secret, others, rest), behind);
    AllTheSameIff(COOKIE_SET + secret, others, Sort([COOKIE_SET + secret] + others));
  }

  const COOKIE_NAME := "cookie-secret"

  /** An option prints a cookie-like argument exactly when its name starts with "cookie-secret". */
  lemma CookieFlagIff(k: string, v: string)
    ensures COOKIE <= Flag(k, v) <==> COOKIE_NAME <= k
  {
    assert COOKIE == "--" + COOKIE_NAME;
    BehindDashes(COOKIE_NAME, k + "=" + v);
    assert "--" + (k + "=" + v) == Flag(k, v);
    forall i: nat | i < |COOKIE_NAME| ensures COOKIE_NAME[i] != '=' { NoEqualsInCookieName(i); }
    BeforeEquals(COOKIE_NAME, k, v);
  }

  lemma BehindDashes(p: string, x: string)
    ensures "--" + p <= "--" + x <==> p <= x
  {
    assert ("--" + p)[2..] == p && ("--" + x)[2..] == x;
    if "--" + p <= "--" + x {
      assert forall i :: 0 <= i < |p| ==> p[i] == ("--" + p)[i + 2] == ("--" + x)[i + 2] == x[i];
    }
  }

  lemma BeforeEquals(p: string, k: string, v: string)
    requires forall i :: 0 <= i < |p| ==> p[i] != '='
    ensures p <= k + "=" + v <==> p <= k
  {
    var x := k + "=" + v;
    assert x[|k|] == '=';
    assert x[..|k|] == k;
    if p <= x && |p| <= |k| { assert forall i :: 0 <= i < |p| ==> p[i] == x[i] == k[i]; }
  }

  lemma NoEqualsInCookieName(i: nat)
    requires i < |COOKIE_NAME|
    ensures COOKIE_NAME[i] != '='
  {
  }

  /**
   An instance none of whose proxy options is named like the cookie flag comes to rest after
   one pass, whatever secrets are generated.
   */
  lemma PlainProxySettles(base: Deployment, t: Deployment, a: string, b: string, fixed: seq<string>, o: Opts,
      printed: seq<string>, again: seq<string>, rest: string, behind: seq<Container>)
    requires NoProxies(base.spec.containers) && NoProxies(behind) && forall x :: x in fixed ==> !(COOKIE <= x)
    requires multiset(printed) == FlagBag(o.Keys, o) == multiset(again)
    requires forall k :: k in o ==> !(COOKIE_NAME <= k)
    ensures var v := WithProxy(base, ProxyContainer(a, fixed + printed, rest), behind);
            var w := WithProxy(base, ProxyContainer(b, fixed + again, rest), behind);
            && MergeDeployment(v, w) == v
            && MergeDeployment(MergeDeployment(t, v), w) == MergeDeployment(t, v)
  {
    var v := WithProxy(base, ProxyContainer(a, fixed + printed, rest), behind);
    var w := WithProxy(base, ProxyContainer(b, fixed + again, rest), behind);
    GeneratedAreTwins(base, a, b, fixed + printed, fixed + again, rest, behind);
    forall x | x in fixed + printed && COOKIE <= x ensures false { PrintsNoCookie(o, printed, x); }
    GeneratedTidyIff(base, a, fixed + printed, rest, behind);
    CreatedSettlesIff(v, w);
    UpdatedSettlesIff(t, v, w);
  }

  lemma PrintsNoCookie(o: Opts, printed: seq<string>, x: string)
    requires multiset(printed) == FlagBag(o.Keys, o) && x in printed && forall k :: k in o ==> !(COOKIE_NAME <= k)
    ensures !(COOKIE <= x)
  {
    assert x in multiset(printed);
    FlagBagMember(o.Keys, o, x);
    var k :| k in o && x in Flags(k, o[k]);
    var i :| 0 <= i < |Flags(k, o[k])| && Flags(k, o[k])[i] == x;
    CookieFlagIff(k, if o[k].One? then o[k].s else o[k].ss[i]);
  }
}
