/**
 The admin port end to end: set as the health-check port of a collector before 1.15.0, carried
 through an upgrade, printed as an argument (apis/v1/options.go) and read back by GetAdminPort
 (pkg/util/util.go).
 */
module AdminPort {
  import opened Text
  import opened Options
  import opened Arguments
  import opened Migrations
  import opened Upgrade
  import opened MigrationLaws
  import opened MigrationReruns
  import opened ReadBack

  // --- Reading it back ---------------------------------------------------------------------

  ghost predicate NoLookalikes(k: string, o: Opts) { forall x :: x in o ==> !Lookalike(k, x) }

  lemma FirstPortReadIff(o: Opts, k: string, replaced: string, p: int, port: int)
    requires '=' !in k && exists x :: Answers(o, k, x)
    ensures (forall args :: Printing(o, args) ==> FirstPort("--" + k + "=", replaced, args, port) == p)
              <==> AllRead(o, k, p, port)
  {
    PortReadIff(o, k, p, port);
    forall args | Printing(o, args)
      ensures FirstPort("--" + k + "=", replaced, args, port) == GetPort("--" + k + "=", args, port)
    {
      ReadFromPrinting(o, k, args, port);
    }
  }

  // --- Look-alikes through an upgrade ------------------------------------------------------

  /** No step touches the option in the collector block. */
  ghost predicate Outside(t: Tables, k: string) {
    && !IsFrom(t.v115, k) && !IsTo(t.v115, k) && !IsFrom(t.v117, k) && !IsTo(t.v117, k)
    && k != CONSUMER_TLS && k != PRODUCER_TLS && Bystander(t, k)
  }

  lemma SameAtOn(o: Opts, p: Opts, q: Opts, k: string)
    requires SameAt(o, p, k) && SameAt(p, q, k)
    ensures SameAt(o, q, k)
  {
  }

  lemma OutsideStep(t: Tables, deleteFails: bool, i: nat, b: Blocks, k: string)
    requires Outside(t, k) && i < |REGISTRY|
    ensures var r := Apply(t, deleteFails, REGISTRY[i], b); r.Some? ==> SameAt(b.collector, r.value.collector, k)
  {
    if i == 0 {
      MigratedSameAt(b.collector, t.v115, k);
    } else if i == 1 {
      var m := Migrated(b.collector, t.v117);
      MigratedSameAt(b.collector, t.v117, k);
      KafkaSameAt(m, k);
      SameAtOn(b.collector, m, KafkaTls(m), k);
    } else if i == 2 {
      BystanderAt118(t, b, k);
    } else {
      LateBystander(t, deleteFails, i, b, k);
    }
  }

  lemma OutsideRun(t: Tables, deleteFails: bool, n: nat, j: Instance<Blocks>, k: string)
    requires Outside(t, k) && n <= |REGISTRY|
    ensures var r := RunSteps(JaegerSteps(t, deleteFails), REGISTRY[0..n], j);
            r.ok ==> SameAt(j.spec.collector, r.instance.spec.collector, k)
  {
    ghost var holds := (q: nat, x: Blocks) => SameAt(j.spec.collector, x.collector, k);
    forall q: nat, x: Instance<Blocks> | 0 <= q < n && holds(q, x.spec)
        && JaegerSteps(t, deleteFails)(REGISTRY[q], x).Done?
      ensures holds(q + 1, JaegerSteps(t, deleteFails)(REGISTRY[q], x).instance.spec)
    {
      OutsideStep(t, deleteFails, q, x.spec, k);
    }
    RunStretch(JaegerSteps(t, deleteFails), REGISTRY, 0, n, holds, j);
  }

  /** No step touches a look-alike of `k`. */
  ghost predicate LookalikesBeyond(t: Tables, k: string) { forall x :: Lookalike(k, x) ==> Outside(t, x) }

  /** Every look-alike in `o` is in `u` with its value as text, and no other. */
  ghost predicate LookalikesKept(o: Opts, u: Opts, k: string) {
    forall x :: Lookalike(k, x) ==> (x in u <==> x in o) && (x in u ==> u[x] == One(Shown(o[x])))
  }

  /** Every look-alike comes out of the upgrade with its value as text. */
  lemma UpgradedLookalikes(t: Tables, deleteFails: bool, j: Instance<Blocks>, latest: Version, k: string)
    requires Regular(t) && LookalikesBeyond(t, k)
    requires j.version.Some? && AtMost(START, j.version.value) && Less(j.version.value, V115) && AtMost(V118, latest)
    requires Upgraded(JaegerSteps(t, deleteFails), REGISTRY, j, latest).ok
    ensures var o := Upgraded(JaegerSteps(t, deleteFails), REGISTRY, j, latest).instance.spec.collector;
            LookalikesKept(j.spec.collector, o, k)
  {
    UpgradedFromStart(t, deleteFails, j, latest);
    UpgradedIsSettled(t, deleteFails, j, latest);
    var n := Reached(latest);
    assert REGISTRY[0..n] == REGISTRY[..n];
    var o := Upgraded(JaegerSteps(t, deleteFails), REGISTRY, j, latest).instance.spec.collector;
    forall x | Lookalike(k, x)
      ensures (x in o <==> x in j.spec.collector) && (x in o ==> o[x] == One(Shown(j.spec.collector[x])))
    {
      OutsideRun(t, deleteFails, n, j, x);
    }
  }

  /** The look-alikes that were configured read as `p`. */
  ghost predicate LookalikesRead(o: Opts, k: string, p: int, port: int) {
    forall x :: x in o && Lookalike(k, x) ==> PortIn(Flag(x, Shown(o[x])), port) == p
  }

  lemma LookalikesReadIff(o: Opts, u: Opts, k: string, s: string, p: int, port: int)
    requires k in u && u[k] == One(s) && PortIn(Flag(k, s), port) == p && !Lookalike(k, k)
    requires LookalikesKept(o, u, k)
    ensures Answers(u, k, k) && (AllRead(u, k, p, port) <==> LookalikesRead(o, k, p, port))
  {
    assert Flags(k, u[k]) == [Flag(k, s)];
    if AllRead(u, k, p, port) {
      forall x | x in o && Lookalike(k, x) ensures PortIn(Flag(x, Shown(o[x])), port) == p {
        assert Flags(x, u[x]) == [Flag(x, Shown(o[x]))];
        assert Answers(u, k, x);
      }
    }
  }

  // --- The registered upgrade --------------------------------------------------------------

  lemma NoEqualsSign()
    ensures '=' !in AdminPortNames().hostPort
  {
  }

  lemma NoColon()
    ensures ':' !in AdminPortNames().hostPort
  {
  }

  lemma AdminPortIsFirstPort(args: seq<string>, port: int)
    ensures GetAdminPort(args, port)
              == FirstPort("--" + AdminPortNames().hostPort + "=", "--" + ADMIN_HTTP_PORT + "=", args, port)
  {
    assert AdminPortNames().hostPort == ADMIN_HOST_PORT;
  }

  /** A look-alike is longer than the name, and starts like it. */
  lemma LookalikeShape(x: string)
    requires Lookalike(AdminPortNames().hostPort, x)
    ensures |x| > 20 && x[0] == 'a'
  {
    assert |AdminPortNames().hostPort| == 20 && (AdminPortNames().hostPort + "=")[0] == 'a';
  }

  /** No name of a table is that long and starts so. */
  ghost predicate Shorter(table: seq<Rename>) {
    forall d :: d in table ==> (|d.from| <= 20 || d.from[0] != 'a') && (|d.to| <= 20 || d.to[0] != 'a')
  }

  lemma Shorter115()
    ensures Shorter(T115)
  {
    Shorter115From();
    Shorter115To();
  }

  lemma Shorter115From()
    ensures forall d :: d in T115 ==> |d.from| <= 20 || d.from[0] != 'a'
  {
    assert T115[0].from[0] == T115[1].from[0] == T115[5].from[0] == T115[6].from[0] == 'c';
    assert T115[2].from[0] == T115[3].from[0] == 'd' && T115[4].from[0] == 'h';
  }

  lemma Shorter115To()
    ensures forall d :: d in T115 ==> |d.to| <= 20 || d.to[0] != 'a'
  {
    assert T115[0].to[0] == 'c' && T115[1].to[0] == 'r' && T115[2].to[0] == 'r' && T115[3].to[0] == 'r';
    assert |T115[4].to| == 15;
  }

  lemma Shorter117()
    ensures Shorter(TlsTable(TLS_PREFIXES))
  {
    forall d | d in TlsTable(TLS_PREFIXES)
      ensures (|d.from| <= 20 || d.from[0] != 'a') && (|d.to| <= 20 || d.to[0] != 'a')
    {
      TlsTableRows(TLS_PREFIXES, d);
      var p :| p in TLS_PREFIXES && d == Rename(p + ".tls", p + ".tls.enabled");
      TlsPrefixShape(p);
      SameStart(p, ".tls");
      SameStart(p, ".tls.enabled");
    }
  }

  lemma TlsPrefixShape(p: string)
    requires p in TLS_PREFIXES
    ensures p != "" && p[0] != 'a'
  {
  }

  lemma SameStart(p: string, s: string)
    requires p != ""
    ensures (p + s)[0] == p[0]
  {
  }

  lemma Shorter118()
    ensures Shorter(T118_COLLECTOR)
  {
    assert |T118_COLLECTOR[4].from| == 15 && |T118_COLLECTOR[4].to| == 20;
  }

  lemma NotInShorter(table: seq<Rename>, x: string)
    requires Shorter(table) && |x| > 20 && x[0] == 'a'
    ensures !IsFrom(table, x) && !IsTo(table, x)
  {
  }

  lemma Shorter120()
    ensures Shorter(T120)
  {
    NameShapes120();
  }

  lemma Shorter122()
    ensures Shorter(T122_COLLECTOR)
  {
    NameShapes122();
  }

  lemma LookalikeIsBystander(x: string)
    requires |x| > 20 && x[0] == 'a'
    ensures Bystander(RegisteredTables(), x)
  {
    Shorter118();
    Shorter120();
    Shorter122();
    CassandraNameShapes();
    NotInShorter(T118_COLLECTOR, x);
    NotInShorter(T120, x);
    NotInShorter(T122_COLLECTOR, x);
  }

  lemma LookalikesOutside(x: string)
    requires Lookalike(AdminPortNames().hostPort, x)
    ensures Outside(RegisteredTables(), x)
  {
    LookalikeShape(x);
    LookalikeIsBystander(x);
    Shorter115();
    Shorter117();
    NotInShorter(T115, x);
    NotInShorter(TlsTable(TLS_PREFIXES), x);
    assert CONSUMER_TLS[0] == PRODUCER_TLS[0] == 'k';
  }

  /**
   The health-check port of a collector keeps its meaning from any version in [1.11.0, 1.15.0)
   to any version from 1.18.0 on: printed in any order, the arguments of the upgraded options give
   back the very number that was configured, if and only if every option whose name starts
   "admin.http.host-port=" would be read as that number too.
   */
  lemma AdminPortSurvivesIff(deleteFails: bool, j: Instance<Blocks>, latest: Version, v: string, port: int)
    requires j.version.Some? && AtMost(START, j.version.value) && Less(j.version.value, V115) && AtMost(V118, latest)
    requires Has(j.spec.collector, AdminPortNames().health, v) && ParseInt32(v).Some?
    requires Upgraded(JaegerSteps(RegisteredTables(), deleteFails), REGISTRY, j, latest).ok
    ensures var o := Upgraded(JaegerSteps(RegisteredTables(), deleteFails), REGISTRY, j,
              latest).instance.spec.collector;
            (forall args :: Printing(o, args) ==> GetAdminPort(args, port) == ParseInt32(v).value)
            <==> LookalikesRead(j.spec.collector, AdminPortNames().hostPort, ParseInt32(v).value, port)
  {
    var o := Upgraded(JaegerSteps(RegisteredTables(), deleteFails), REGISTRY, j, latest).instance.spec.collector;
    UpgradedAdminPort(deleteFails, j, latest, v);
    AdminPortReadIff(j.spec.collector, o, v, ParseInt32(v).value, port);
  }

  lemma UpgradedAdminPort(deleteFails: bool, j: Instance<Blocks>, latest: Version, v: string)
    requires j.version.Some? && AtMost(START, j.version.value) && Less(j.version.value, V115) && AtMost(V118, latest)
    requires Has(j.spec.collector, AdminPortNames().health, v)
    requires Upgraded(JaegerSteps(RegisteredTables(), deleteFails), REGISTRY, j, latest).ok
    ensures var o := Upgraded(JaegerSteps(RegisteredTables(), deleteFails), REGISTRY, j,
              latest).instance.spec.collector;
            && Has(o, AdminPortNames().hostPort, ":" + v)
            && LookalikesKept(j.spec.collector, o, AdminPortNames().hostPort)
  {
    RegisteredTablesCarryPort();
    UpgradedPort(AdminPortNames(), RegisteredTables(), deleteFails, j, latest, v);
    RegisteredLookalikes(deleteFails, j, latest);
  }

  lemma AllLookalikesOutside(t: Tables)
    requires t == RegisteredTables()
    ensures LookalikesBeyond(t, AdminPortNames().hostPort)
  {
    forall x | Lookalike(AdminPortNames().hostPort, x) ensures Outside(t, x) { LookalikesOutside(x); }
  }

  lemma RegisteredLookalikes(deleteFails: bool, j: Instance<Blocks>, latest: Version)
    requires j.version.Some? && AtMost(START, j.version.value) && Less(j.version.value, V115) && AtMost(V118, latest)
    requires Upgraded(JaegerSteps(RegisteredTables(), deleteFails), REGISTRY, j, latest).ok
    ensures var o := Upgraded(JaegerSteps(RegisteredTables(), deleteFails), REGISTRY, j,
              latest).instance.spec.collector;
            LookalikesKept(j.spec.collector, o, AdminPortNames().hostPort)
  {
    AllLookalikesOutside(RegisteredTables());
    LookalikesAsRegistered(RegisteredTables(), deleteFails, j, latest, AdminPortNames().hostPort);
  }

  lemma LookalikesAsRegistered(t: Tables, deleteFails: bool, j: Instance<Blocks>, latest: Version, k: string)
    requires t == RegisteredTables() && LookalikesBeyond(t, k)
    requires j.version.Some? && AtMost(START, j.version.value) && Less(j.version.value, V115) && AtMost(V118, latest)
    requires Upgraded(JaegerSteps(t, deleteFails), REGISTRY, j, latest).ok
    ensures var o := Upgraded(JaegerSteps(t, deleteFails), REGISTRY, j, latest).instance.spec.collector;
            LookalikesKept(j.spec.collector, o, k)
  {
    RegularAsRegistered(t);
    UpgradedLookalikes(t, deleteFails, j, latest, k);
  }

  lemma AdminPortReadIff(o: Opts, u: Opts, v: string, p: int, port: int)
    requires Has(u, AdminPortNames().hostPort, ":" + v)
               && p == (if ParseInt32(v).Some? then ParseInt32(v).value else port)
    requires LookalikesKept(o, u, AdminPortNames().hostPort)
    ensures (forall args :: Printing(u, args) ==> GetAdminPort(args, port) == p)
       <==> LookalikesRead(o, AdminPortNames().hostPort, p, port)
  {
    var k := AdminPortNames().hostPort;
    NoEqualsSign();
    OwnFlagReads(v, port);
    LookalikesReadIff(o, u, k, ":" + v, p, port);
    FirstPortReadIff(u, k, "--" + ADMIN_HTTP_PORT + "=", p, port);
    forall args
      ensures GetAdminPort(args, port) == FirstPort("--" + k + "=", "--" + ADMIN_HTTP_PORT + "=", args, port)
    {
      AdminPortIsFirstPort(args, port);
    }
  }

  lemma OwnFlagReads(v: string, port: int)
    ensures PortIn(Flag(AdminPortNames().hostPort, ":" + v), port)
              == (if ParseInt32(v).Some? then ParseInt32(v).value else port)
  {
    NoColon();
    PrefixWithoutColon(AdminPortNames().hostPort);
    FlagOfPort(AdminPortNames().hostPort, v);
    PortInReads("--" + AdminPortNames().hostPort + "=", v, port);
  }

  lemma PrefixWithoutColon(k: string)
    requires ':' !in k
    ensures ':' !in "--" + k + "="
  {
  }

  lemma FlagOfPort(k: string, v: string)
    ensures Flag(k, ":" + v) == ("--" + k + "=") + [':'] + v
  {
  }

  /**
   After a torn patch the next upgrade writes the port as "::v", from which none is read: without
   look-alikes the admin port falls back to the default, in every order of the arguments.
   */
  lemma TornPatchLosesAdminPort(fails: bool, failsAgain: bool, j: Instance<Blocks>, latest: Version, v: string,
      port: int)
    requires j.version.Some? && AtMost(START, j.version.value) && Less(j.version.value, V115) && AtMost(V118, latest)
    requires NoLookalikes(AdminPortNames().hostPort, j.spec.collector)
               && Has(j.spec.collector, AdminPortNames().health, v)
    requires Upgraded(JaegerSteps(RegisteredTables(), fails), REGISTRY, j, latest).ok
    requires var done := Upgraded(JaegerSteps(RegisteredTables(), fails), REGISTRY, j, latest).instance.spec;
             Upgraded(JaegerSteps(RegisteredTables(), failsAgain), REGISTRY, Torn(j, done), latest).ok
    ensures var done := Upgraded(JaegerSteps(RegisteredTables(), fails), REGISTRY, j, latest).instance.spec;
            var o := Upgraded(JaegerSteps(RegisteredTables(), failsAgain), REGISTRY, Torn(j, done),
                latest).instance.spec.collector;
            forall args :: Printing(o, args) ==> GetAdminPort(args, port) == port
  {
    var t := RegisteredTables();
    var done := Upgraded(JaegerSteps(t, fails), REGISTRY, j, latest).instance.spec;
    var o := Upgraded(JaegerSteps(t, failsAgain), REGISTRY, Torn(j, done), latest).instance.spec.collector;
    RegisteredTornPatchDoublesColon(fails, failsAgain, j, latest, v);
    UpgradedAdminPort(fails, j, latest, v);
    TornLookalikes(failsAgain, Torn(j, done), latest);
    DoubleColonReadsDefault(o, v, port);
  }

  lemma DoubleColonReadsDefault(o: Opts, v: string, port: int)
    requires Has(o, AdminPortNames().hostPort, ":" + (":" + v)) && NoLookalikes(AdminPortNames().hostPort, o)
    ensures forall args :: Printing(o, args) ==> GetAdminPort(args, port) == port
  {
    NoNumberWithColon(v);
    AdminPortReadIff(o, o, ":" + v, port, port);
  }

  lemma TornLookalikes(fails: bool, j: Instance<Blocks>, latest: Version)
    requires j.version.Some? && AtMost(START, j.version.value) && Less(j.version.value, V115) && AtMost(V118, latest)
    requires NoLookalikes(AdminPortNames().hostPort, j.spec.collector)
    requires Upgraded(JaegerSteps(RegisteredTables(), fails), REGISTRY, j, latest).ok
    ensures NoLookalikes(AdminPortNames().hostPort,
                         Upgraded(JaegerSteps(RegisteredTables(), fails), REGISTRY, j, latest).instance.spec.collector)
  {
    RegisteredLookalikes(fails, j, latest);
  }

  lemma NoNumberWithColon(v: string)
    ensures ParseInt32(":" + v).None?
  {
    assert !IsDigit((":" + v)[0]);
  }
}
