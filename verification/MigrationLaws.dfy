/** What the registered steps guarantee, one by one and over a whole upgrade. */
module MigrationLaws {
  import opened Text
  import opened Options
  import opened Migrations
  import opened Upgrade

  /** The registered steps do not look at the status version, so upgrades are path independent. */
  lemma StepsAreBlind(t: Tables, deleteFails: bool)
    ensures Blind(JaegerSteps(t, deleteFails)) && Ascending(REGISTRY)
  {
  }

  // --- No old name survives ----------------------------------------------------------------

  ghost predicate Absent(b: Blocks, k: string) {
    k !in b.allInOne && k !in b.collector && k !in b.query && k !in b.agent && k !in b.ingester && k !in b.storage
  }

  lemma MigratedAbsent(o: Opts, table: seq<Rename>, k: string)
    requires !IsTo(table, k) && (k !in o || IsFrom(table, k))
    ensures k !in Migrated(o, table)
  {
    RenamedKeys(o, table, k);
  }

  lemma MigratedAllAbsent(b: Blocks, table: seq<Rename>, k: string)
    requires !IsTo(table, k) && (Absent(b, k) || IsFrom(table, k))
    ensures Absent(MigratedAll(b, table), k)
  {
    MigratedAbsent(b.allInOne, table, k);
    MigratedAbsent(b.collector, table, k);
    MigratedAbsent(b.query, table, k);
    MigratedAbsent(b.agent, table, k);
    MigratedAbsent(b.ingester, table, k);
    MigratedAbsent(b.storage, table, k);
  }

  lemma {:induction false} WithColonsKeys(o: Opts, table: seq<Rename>)
    ensures WithColons(o, table).Keys == o.Keys
    decreases |table|
  {
    if table != [] {
      var d := table[0];
      WithColonsKeys(if d.to in o then o[d.to := One(":" + Shown(o[d.to]))] else o, table[1..]);
    }
  }

  lemma {:induction false} TlsTableRows(prefixes: seq<string>, d: Rename)
    requires d in TlsTable(prefixes)
    ensures exists p :: p in prefixes && d == Rename(p + ".tls", p + ".tls.enabled")
  {
    if d == TlsTable(prefixes)[0] {
      assert prefixes[0] in prefixes;
    } else {
      assert d in TlsTable(prefixes[1..]);
      TlsTableRows(prefixes[1..], d);
      var p :| p in prefixes[1..] && d == Rename(p + ".tls", p + ".tls.enabled");
      assert p in prefixes;
    }
  }

  /** No name that `olds` renames away is a new name of `news`. */
  ghost predicate Separate(olds: seq<Rename>, news: seq<Rename>) {
    forall d, e :: d in olds && e in news ==> d.from != e.to
  }

  function LastChar(s: string): char { if s == "" then ' ' else s[|s| - 1] }

  lemma Separate115()
    ensures Separate(T115, T115)
  {
    forall d, e | d in T115 && e in T115 ensures d.from != e.to {
      if |d.from| == |e.to| {
        assert |e.to| == 28;
        assert e.to[25] == '-';
        assert d.from[25] != '-';
      }
    }
  }

  lemma Separate115From118()
    ensures Separate(T115, T118_COLLECTOR)
  {
    forall d, e | d in T115 && e in T118_COLLECTOR ensures d.from != e.to {
      assert |e.to| in {32, 31, 26, 20} && e.to[1] != 'a';
      assert |d.from| == 32 ==> d.from[1] == 'a';
    }
  }

  lemma Separate115From120()
    ensures Separate(T115, T120)
  {
  }

  lemma Separate115From122()
    ensures Separate(T115, T122_COLLECTOR) && Separate(T115, T122_AGENT)
  {
    assert T122_COLLECTOR[0].to[10] == T122_AGENT[0].to[6] == 't';
    assert |T122_COLLECTOR[0].to| == 14 && |T122_AGENT[0].to| == 10;
    Longer115();
  }

  lemma Longer115()
    ensures forall d :: d in T115 ==> |d.from| > 14
  {
  }

  lemma Separate115Rest()
    ensures forall d :: d in T115 ==> LastChar(d.from) !in {'d', 'y', ' '} && d.from !in {QUERY_GRPC, QUERY_HTTP}
  {
  }

  lemma Separate120()
    ensures Separate(T120, T120) && Separate(T120, T122_COLLECTOR) && Separate(T120, T122_AGENT)
    ensures forall d :: d in T120 ==> LastChar(d.from) !in {'d', 'y', ' '} && d.from !in {QUERY_GRPC, QUERY_HTTP}
  {
  }

  lemma Separate120Earlier()
    ensures Separate(T120, T118_COLLECTOR)
  {
  }

  /** The name ends like ".tls". */
  predicate TlsEnd(k: string) { |k| >= 4 && k[|k| - 2] == 'l' && LastChar(k) == 's' }

  lemma NoTlsEnd118()
    ensures forall d :: d in T118_COLLECTOR ==> !TlsEnd(d.to)
  {
    assert forall d :: d in T118_COLLECTOR ==> LastChar(d.to) == 't';
  }

  lemma NoTlsEndLater()
    ensures forall d :: d in T120 || d in T122_COLLECTOR || d in T122_AGENT ==> !TlsEnd(d.to)
    ensures !TlsEnd(QUERY_GRPC) && !TlsEnd(QUERY_HTTP)
  {
  }

  lemma TlsRow(d: Rename)
    requires d in TlsTable(TLS_PREFIXES)
    ensures TlsEnd(d.from) && LastChar(d.to) == 'd'
  {
    TlsTableRows(TLS_PREFIXES, d);
    var p :| p in TLS_PREFIXES && d == Rename(p + ".tls", p + ".tls.enabled");
  }

  /** No step after 1.15.0 introduces the name `k`. */
  ghost predicate NeverNew(t: Tables, k: string) {
    && !IsTo(t.v117, k) && !IsTo(t.v118Collector, k) && !IsTo(t.v118Agent, k) && !IsTo(t.v120, k)
    && !IsTo(t.v122Collector, k) && !IsTo(t.v122Agent, k) && !IsTo(t.v122Query, k)
    && k != "kafka.consumer.tls.enabled" && k != "kafka.producer.tls.enabled"
    && k != QUERY_GRPC && k != QUERY_HTTP && k != SKIP_VERIFY
  }

  ghost predicate OldName(t: Tables, k: string) { IsFrom(t.v115, k) || IsFrom(t.v117, k) || IsFrom(t.v120, k) }

  /** Old names stay away: no table brings back what 1.15.0, 1.17.0 or 1.20.0 took out. */
  ghost predicate Consistent(t: Tables) {
    Acyclic(t.v115) && forall k :: OldName(t, k) ==> NeverNew(t, k)
  }

  /** What tells a name apart from the TLS, Kafka and Cassandra names by its last letter. */
  lemma NotEnabled(k: string)
    requires LastChar(k) !in {'d', 'y', ' '}
    ensures !IsTo(TlsTable(TLS_PREFIXES), k)
    ensures k != "kafka.consumer.tls.enabled" && k != "kafka.producer.tls.enabled" && k != SKIP_VERIFY
  {
    assert LastChar("kafka.consumer.tls.enabled") == 'd' && LastChar("kafka.producer.tls.enabled") == 'd';
    forall e | e in TlsTable(TLS_PREFIXES) ensures e.to != k { TlsRow(e); }
  }

  lemma NotDropped(k: string)
    requires k != ""
    ensures !IsTo(T118_AGENT, k) && !IsTo(T122_QUERY, k)
  {
    assert forall e :: e in T118_AGENT || e in T122_QUERY ==> e.to == "";
  }

  lemma OldTlsNeverNew(k: string)
    requires IsFrom(TlsTable(TLS_PREFIXES), k)
    ensures NeverNew(RegisteredTables(), k)
  {
    var d :| d in TlsTable(TLS_PREFIXES) && d.from == k;
    TlsRow(d);
    NotEnabled(k);
    NotDropped(k);
    NoTlsEnd118();
    NoTlsEndLater();
  }

  lemma Old115NeverNew(k: string)
    requires IsFrom(T115, k)
    ensures NeverNew(RegisteredTables(), k)
  {
    Old115NotTo(k);
    Separate115Rest();
    NotEnabled(k);
    NotDropped(k);
  }

  lemma Old115NotTo(k: string)
    requires IsFrom(T115, k)
    ensures !IsTo(T118_COLLECTOR, k) && !IsTo(T120, k) && !IsTo(T122_COLLECTOR, k) && !IsTo(T122_AGENT, k)
  {
    Separate115From118();
    Separate115From120();
    Separate115From122();
  }

  lemma Old120NeverNew(k: string)
    requires IsFrom(T120, k)
    ensures NeverNew(RegisteredTables(), k)
  {
    Old120NotTo(k);
    NotEnabled(k);
    NotDropped(k);
  }

  lemma Old120NotTo(k: string)
    requires IsFrom(T120, k)
    ensures !IsTo(T118_COLLECTOR, k) && !IsTo(T120, k) && !IsTo(T122_COLLECTOR, k) && !IsTo(T122_AGENT, k)
    ensures LastChar(k) !in {'d', 'y', ' '} && k != ""
    ensures k != QUERY_GRPC && k != QUERY_HTTP
  {
    Separate120();
    Separate120Earlier();
  }

  lemma RegisteredTablesConsistent()
    ensures Consistent(RegisteredTables())
  {
    var t := RegisteredTables();
    Separate115();
    forall k | OldName(t, k) ensures NeverNew(t, k) {
      if IsFrom(T115, k) {
        Old115NeverNew(k);
      } else if IsFrom(T120, k) {
        Old120NeverNew(k);
      } else {
        OldTlsNeverNew(k);
      }
    }
  }

  lemma Kept117(t: Tables, b: Blocks, k: string)
    requires NeverNew(t, k) && (Absent(b, k) || IsFrom(t.v117, k))
    ensures Absent(Step117(b, t.v117), k)
  {
    MigratedAllAbsent(b, t.v117, k);
  }

  lemma Kept118(t: Tables, b: Blocks, k: string)
    requires NeverNew(t, k) && Absent(b, k)
    ensures Absent(Step118(b, t.v118Collector, t.v118Agent), k)
  {
    MigratedAbsent(b.collector, t.v118Collector, k);
    WithColonsKeys(Migrated(b.collector, t.v118Collector), t.v118Collector);
    MigratedAbsent(b.agent, t.v118Agent, k);
  }

  lemma Kept122(t: Tables, b: Blocks, k: string)
    requires NeverNew(t, k) && Absent(b, k)
    ensures var r := Step122(b, t.v122Collector, t.v122Agent, t.v122Query); r.Some? ==> Absent(r.value, k)
  {
    MigratedAbsent(b.allInOne, t.v122Collector, k);
    MigratedAbsent(b.collector, t.v122Collector, k);
    MigratedAbsent(b.agent, t.v122Agent, k);
    MigratedAbsent(b.query, t.v122Query, k);
  }

  /** Once gone, an old name stays gone through every later step. */
  lemma KeptBy(t: Tables, deleteFails: bool, v: Version, b: Blocks, k: string)
    requires NeverNew(t, k) && Absent(b, k) && v != V115
    ensures Apply(t, deleteFails, v, b).Some? ==> Absent(Apply(t, deleteFails, v, b).value, k)
  {
    if v == V117 {
      Kept117(t, b, k);
    } else if v == V118 {
      Kept118(t, b, k);
    } else if v == V120 {
      MigratedAllAbsent(b, t.v120, k);
    } else if v == V122 {
      Kept122(t, b, k);
    }
  }

  /** What every step of the plan carries on holds at the end of it. */
  lemma {:induction false} RunInvariant<S>(steps: Steps<S>, plan: seq<Version>, i: nat, holds: (nat, S) -> bool,
      j: Instance<S>)
    requires i <= |plan| && holds(i, j.spec)
    requires forall m: nat, x: Instance<S> :: m < |plan| && holds(m, x.spec) && steps(plan[m], x).Done? ==>
               holds(m + 1, steps(plan[m], x).instance.spec)
    ensures var r := RunSteps(steps, plan[i..], j); r.ok ==> holds(|plan|, r.instance.spec)
    decreases |plan| - i
  {
    if i < |plan| {
      assert plan[i..][0] == plan[i] && plan[i..][1..] == plan[i + 1..];
      var step := steps(plan[i], j);
      if step.Done? { RunInvariant(steps, plan, i + 1, holds, step.instance.(version := Some(plan[i]))); }
    }
  }

  /** How many registered versions are at most `latest`. */
  function Reached(latest: Version): nat {
    if Less(latest, V115) then 0 else if Less(latest, V117) then 1 else if Less(latest, V118) then 2
    else if Less(latest, V120) then 3 else if Less(latest, V122) then 4 else if Less(latest, V128) then 5
    else if Less(latest, V131) then 6 else 7
  }

  lemma PlanIsPrefix(current: Version, latest: Version)
    requires Less(current, V115) && AtMost(current, latest)
    ensures Plan(REGISTRY, current, latest) == REGISTRY[..Reached(latest)]
  {
    var plan, expected := Plan(REGISTRY, current, latest), REGISTRY[..Reached(latest)];
    StepsAreBlind(RegisteredTables(), false);
    PlanExact(REGISTRY, current, latest);
    PrefixExact(current, latest);
    assert Elements(plan) == Elements(expected);
    AscendingUnique(plan, expected);
  }

  lemma PrefixExact(current: Version, latest: Version)
    requires Less(current, V115)
    ensures Ascending(REGISTRY[..Reached(latest)])
    ensures forall v :: v in REGISTRY[..Reached(latest)] <==> v in REGISTRY && Due(v, current, latest)
  {
    var n := Reached(latest);
    forall v ensures v in REGISTRY[..n] <==> v in REGISTRY && Due(v, current, latest) {
      if v in REGISTRY {
        var i :| 0 <= i < |REGISTRY| && REGISTRY[i] == v;
        assert i < n <==> AtMost(v, latest);
        assert i < n ==> REGISTRY[..n][i] == v;
      }
    }
  }

  /** An upgrade from below 1.15.0 runs the first registered steps, as far as `latest` reaches. */
  lemma UpgradedFromStart(t: Tables, deleteFails: bool, j: Instance<Blocks>, latest: Version)
    requires j.version.Some? && AtMost(START, j.version.value) && Less(j.version.value, V115)
               && AtMost(j.version.value, latest)
    ensures var r := Upgraded(JaegerSteps(t, deleteFails), REGISTRY, j, latest);
            var run := RunSteps(JaegerSteps(t, deleteFails), REGISTRY[..Reached(latest)], j);
            r.ok == run.ok && (r.ok ==> r.instance == Instance(Some(latest), run.instance.spec))
  {
    PlanIsPrefix(j.version.value, latest);
  }

  /** The first `n` steps include one that renames `k` away. */
  ghost predicate Removed(t: Tables, n: nat, k: string) {
    (n >= 1 && IsFrom(t.v115, k)) || (n >= 2 && IsFrom(t.v117, k)) || (n >= 4 && IsFrom(t.v120, k))
  }

  lemma RemovedBy(t: Tables, deleteFails: bool, n: nat, b: Blocks, k: string)
    requires Consistent(t) && n < |REGISTRY| && Removed(t, n + 1, k) && !Removed(t, n, k)
    ensures var r := Apply(t, deleteFails, REGISTRY[n], b); r.Some? ==> Absent(r.value, k)
  {
    assert OldName(t, k);
    if n == 0 {
      MigratedAllAbsent(b, t.v115, k);
    } else if n == 1 {
      Kept117(t, b, k);
    } else {
      assert n == 3;
      MigratedAllAbsent(b, t.v120, k);
    }
  }

  lemma StillGone(t: Tables, deleteFails: bool, n: nat, b: Blocks, k: string)
    requires Consistent(t) && n < |REGISTRY| && Removed(t, n + 1, k) && (Removed(t, n, k) ==> Absent(b, k))
    ensures var r := Apply(t, deleteFails, REGISTRY[n], b); r.Some? ==> Absent(r.value, k)
  {
    if Removed(t, n, k) {
      assert OldName(t, k) && n > 0;
      KeptBy(t, deleteFails, REGISTRY[n], b, k);
    } else {
      RemovedBy(t, deleteFails, n, b, k);
    }
  }

  lemma OldNamesGone(t: Tables, deleteFails: bool, n: nat, j: Instance<Blocks>, k: string)
    requires Consistent(t) && n <= |REGISTRY| && Removed(t, n, k)
    ensures var r := RunSteps(JaegerSteps(t, deleteFails), REGISTRY[..n], j); r.ok ==> Absent(r.instance.spec, k)
  {
    var steps, plan := JaegerSteps(t, deleteFails), REGISTRY[..n];
    ghost var holds := (i: nat, b: Blocks) => Removed(t, i, k) ==> Absent(b, k);
    forall m: nat, x: Instance<Blocks> | m < n && holds(m, x.spec) && steps(plan[m], x).Done?
      ensures holds(m + 1, steps(plan[m], x).instance.spec)
    {
      if Removed(t, m + 1, k) { StillGone(t, deleteFails, m, x.spec, k); }
    }
    assert plan[0..] == plan && !Removed(t, 0, k) && holds(0, j.spec);
    RunInvariant(steps, plan, 0, holds, j);
  }

  lemma OldNamesGoneAfterUpgrade(t: Tables, deleteFails: bool, j: Instance<Blocks>, latest: Version, k: string)
    requires j.version.Some? && AtMost(START, j.version.value) && Less(j.version.value, V115) && AtMost(V120, latest)
    requires Consistent(t) && Upgraded(JaegerSteps(t, deleteFails), REGISTRY, j, latest).ok && OldName(t, k)
    ensures Absent(Upgraded(JaegerSteps(t, deleteFails), REGISTRY, j, latest).instance.spec, k)
  {
    UpgradedFromStart(t, deleteFails, j, latest);
    OldNamesGone(t, deleteFails, Reached(latest), j, k);
  }

  /**
   No name renamed or dropped by the 1.15.0, 1.17.0 and 1.20.0 tables is left in any of the
   six option blocks after an upgrade from below 1.15.0 to 1.20.0 or later.
   */
  lemma NoOldNameSurvives(deleteFails: bool, j: Instance<Blocks>, latest: Version, k: string)
    requires j.version.Some? && AtMost(START, j.version.value) && Less(j.version.value, V115) && AtMost(V120, latest)
    requires Upgraded(JaegerSteps(RegisteredTables(), deleteFails), REGISTRY, j, latest).ok
               && OldName(RegisteredTables(), k)
    ensures Absent(Upgraded(JaegerSteps(RegisteredTables(), deleteFails), REGISTRY, j, latest).instance.spec, k)
  {
    RegisteredTablesConsistent();
    OldNamesGoneAfterUpgrade(RegisteredTables(), deleteFails, j, latest, k);
  }

  /** The registered upgrade does not depend on the versions it stops at. */
  lemma JaegerUpgradePathIndependent(t: Tables, deleteFails: bool, j: Instance<Blocks>, a: Version, b: Version)
    requires j.version.Some? && AtMost(START, j.version.value) && AtMost(j.version.value, a) && AtMost(a, b)
    ensures var steps := JaegerSteps(t, deleteFails);
            var direct := Upgraded(steps, REGISTRY, j, b);
            var leg1 := Upgraded(steps, REGISTRY, j, a);
            var leg2 := Upgraded(steps, REGISTRY, leg1.instance, b);
            (direct.ok <==> leg1.ok && leg2.ok) && (direct.ok ==> direct == leg2)
  {
    StepsAreBlind(t, deleteFails);
    UpgradePathIndependent(JaegerSteps(t, deleteFails), REGISTRY, j, a, b);
  }

  // --- The admin port keeps its meaning ----------------------------------------------------

  /** The three names of the admin port, oldest first. */
  datatype PortNames = PortNames(health: string, admin: string, hostPort: string)

  function AdminPortNames(): PortNames {
    PortNames("health-check-http-port", "admin-http-port", "admin.http.host-port")
  }

  /** The option `k` has the single value `v`. */
  ghost predicate Has(o: Opts, k: string, v: string) { k in o && o[k] == One(v) }

  lemma MigratedKeeps(o: Opts, table: seq<Rename>, k: string, v: string)
    requires Has(o, k, v) && !IsFrom(table, k) && !IsTo(table, k)
    ensures Has(Migrated(o, table), k, v)
  {
    RenamedKeys(o, table, k);
  }

  /** The row `n` is the only one that touches either name. */
  ghost predicate RowAt(table: seq<Rename>, n: nat, from: string, to: string) {
    n < |table| && table[n] == Rename(from, to) && Alone(table, n, from, to)
  }

  /** Some row of the table moves `from` to `to`, and no other row touches either name. */
  ghost predicate Moves(table: seq<Rename>, from: string, to: string) {
    Acyclic(table) && to != "" && exists n: nat :: RowAt(table, n, from, to)
  }

  ghost predicate Alone(table: seq<Rename>, n: nat, from: string, to: string) {
    forall i :: 0 <= i < |table| && i != n ==> table[i].from != from && table[i].to != to
  }

  lemma MigratedMoves(o: Opts, table: seq<Rename>, from: string, to: string, v: string)
    requires Moves(table, from, to) && Has(o, from, v)
    ensures Has(Migrated(o, table), to, v)
  {
    var n: nat :| RowAt(table, n, from, to);
    RenamedValue(o, table, n);
  }

  lemma {:induction false} ColonAdded(o: Opts, table: seq<Rename>, n: nat, k: string, v: string)
    requires n < |table| && table[n].to == k && Has(o, k, v)
    requires forall i :: 0 <= i < |table| && i != n ==> table[i].to != k
    ensures Has(WithColons(o, table), k, ":" + v)
    decreases |table|
  {
    var o1 := if table[0].to in o then o[table[0].to := One(":" + Shown(o[table[0].to]))] else o;
    if n == 0 {
      forall d | d in table[1..] ensures d.to != k {
        var i :| 0 <= i < |table[1..]| && table[1..][i] == d;
        assert table[i + 1] == d;
      }
      ColonsElsewhere(o1, table[1..], k);
    } else {
      assert table[1..][n - 1] == table[n];
      ColonAdded(o1, table[1..], n - 1, k, v);
    }
  }

  lemma {:induction false} ColonsElsewhere(o: Opts, table: seq<Rename>, k: string)
    requires k in o && forall d :: d in table ==> d.to != k
    ensures k in WithColons(o, table) && WithColons(o, table)[k] == o[k]
    decreases |table|
  {
    if table != [] {
      assert table[0] in table;
      assert forall d :: d in table[1..] ==> d in table;
      ColonsElsewhere(if table[0].to in o then o[table[0].to := One(":" + Shown(o[table[0].to]))]
          else o, table[1..], k);
    }
  }

  /** The tables move the admin port along and leave it alone otherwise. */
  ghost predicate CarriesPort(f: PortNames, t: Tables) {
    && Apart(f.admin) && Apart(f.hostPort)
    && Moves(t.v115, f.health, f.admin)
    && !IsFrom(t.v117, f.admin) && !IsTo(t.v117, f.admin)
    && Moves(t.v118Collector, f.admin, f.hostPort)
    && !IsFrom(t.v120, f.hostPort) && !IsTo(t.v120, f.hostPort)
    && !IsFrom(t.v122Collector, f.hostPort) && !IsTo(t.v122Collector, f.hostPort)
  }

  /** Where the port `v` is after the first `n` registered steps. */
  ghost predicate PortAt(f: PortNames, n: nat, o: Opts, v: string) {
    && (n == 0 ==> Has(o, f.health, v))
    && (1 <= n < 3 ==> Has(o, f.admin, v))
    && (3 <= n ==> Has(o, f.hostPort, ":" + v))
  }

  /** Names that 1.17.0 and 1.22.0 write outside their tables, or drop. */
  ghost predicate Apart(x: string) {
    && x != "kafka.consumer.tls.enabled" && x != "kafka.producer.tls.enabled" && x != VERIFY_HOST && x != SKIP_VERIFY
  }

  lemma KafkaKeeps(o: Opts, k: string, v: string)
    requires Has(o, k, v) && Apart(k)
    ensures Has(KafkaTls(o), k, v)
  {
  }

  lemma CassandraKeeps(o: Opts, k: string, v: string)
    requires Has(o, k, v) && Apart(k) && CassandraVerify(o).Some?
    ensures Has(CassandraVerify(o).value, k, v)
  {
  }

  lemma PortThrough118(f: PortNames, o: Opts, table: seq<Rename>, v: string)
    requires Moves(table, f.admin, f.hostPort) && Has(o, f.admin, v)
    ensures Has(CollectorPorts(o, table), f.hostPort, ":" + v)
  {
    MigratedMoves(o, table, f.admin, f.hostPort, v);
    var n: nat :| RowAt(table, n, f.admin, f.hostPort);
    ColonAdded(Migrated(o, table), table, n, f.hostPort, v);
  }

  lemma PortThrough122(f: PortNames, b: Blocks, t: Tables, v: string)
    requires CarriesPort(f, t) && Has(b.collector, f.hostPort, v)
    ensures var r := Step122(b, t.v122Collector, t.v122Agent, t.v122Query);
            r.Some? ==> Has(r.value.collector, f.hostPort, v)
  {
    MigratedKeeps(b.collector, t.v122Collector, f.hostPort, v);
    var o := Migrated(b.collector, t.v122Collector);
    if CassandraVerify(o).Some? { CassandraKeeps(o, f.hostPort, v); }
  }

  lemma PortThrough117(f: PortNames, o: Opts, table: seq<Rename>, v: string)
    requires !IsFrom(table, f.admin) && !IsTo(table, f.admin) && Apart(f.admin) && Has(o, f.admin, v)
    ensures Has(KafkaTls(Migrated(o, table)), f.admin, v)
  {
    MigratedKeeps(o, table, f.admin, v);
    KafkaKeeps(Migrated(o, table), f.admin, v);
  }

  lemma PortStepRename(f: PortNames, t: Tables, b: Blocks, v: string)
    requires CarriesPort(f, t)
    ensures PortAt(f, 0, b.collector, v) ==> PortAt(f, 1, MigratedAll(b, t.v115).collector, v)
    ensures PortAt(f, 3, b.collector, v) ==> PortAt(f, 4, MigratedAll(b, t.v120).collector, v)
  {
    if PortAt(f, 0, b.collector, v) {
      MigratedMoves(b.collector, t.v115, f.health, f.admin, v);
    }
    if PortAt(f, 3, b.collector, v) {
      MigratedKeeps(b.collector, t.v120, f.hostPort, ":" + v);
    }
  }

  lemma PortStepRewrite(f: PortNames, t: Tables, b: Blocks, v: string)
    requires CarriesPort(f, t)
    ensures PortAt(f, 1, b.collector, v) ==> PortAt(f, 2, Step117(b, t.v117).collector, v)
    ensures PortAt(f, 2, b.collector, v) ==> PortAt(f, 3, Step118(b, t.v118Collector, t.v118Agent).collector, v)
  {
    if PortAt(f, 1, b.collector, v) {
      PortThrough117(f, b.collector, t.v117, v);
      PortThrough118(f, b.collector, t.v118Collector, v);
    }
  }

  lemma PortStepEarly(f: PortNames, t: Tables, deleteFails: bool, n: nat, b: Blocks, v: string)
    requires CarriesPort(f, t) && n < 3 && PortAt(f, n, b.collector, v)
    ensures var r := Apply(t, deleteFails, REGISTRY[n], b); r.Some? ==> PortAt(f, n + 1, r.value.collector, v)
  {
    if n == 0 {
      PortStepRename(f, t, b, v);
    } else {
      PortStepRewrite(f, t, b, v);
    }
  }

  lemma PortStepLate(f: PortNames, t: Tables, deleteFails: bool, n: nat, b: Blocks, v: string)
    requires CarriesPort(f, t) && 3 <= n < |REGISTRY| && PortAt(f, n, b.collector, v)
    ensures var r := Apply(t, deleteFails, REGISTRY[n], b); r.Some? ==> PortAt(f, n + 1, r.value.collector, v)
  {
    if n == 3 {
      PortStepRename(f, t, b, v);
    } else if n == 4 {
      PortThrough122(f, b, t, ":" + v);
    }
  }

  lemma PortThrough(f: PortNames, t: Tables, deleteFails: bool, n: nat, j: Instance<Blocks>, v: string)
    requires CarriesPort(f, t) && n <= |REGISTRY| && PortAt(f, 0, j.spec.collector, v)
    ensures var r := RunSteps(JaegerSteps(t, deleteFails), REGISTRY[..n], j);
            r.ok ==> PortAt(f, n, r.instance.spec.collector, v)
  {
    var steps, plan := JaegerSteps(t, deleteFails), REGISTRY[..n];
    ghost var holds := (i: nat, b: Blocks) => PortAt(f, i, b.collector, v);
    forall m: nat, x: Instance<Blocks> | m < n && holds(m, x.spec) && steps(plan[m], x).Done?
      ensures holds(m + 1, steps(plan[m], x).instance.spec)
    {
      if m < 3 {
        PortStepEarly(f, t, deleteFails, m, x.spec, v);
      } else {
        PortStepLate(f, t, deleteFails, m, x.spec, v);
      }
    }
    assert plan[0..] == plan;
    RunInvariant(steps, plan, 0, holds, j);
  }

  lemma UpgradedPort(f: PortNames, t: Tables, deleteFails: bool, j: Instance<Blocks>, latest: Version, v: string)
    requires CarriesPort(f, t)
    requires j.version.Some? && AtMost(START, j.version.value) && Less(j.version.value, V115) && AtMost(V118, latest)
    requires Has(j.spec.collector, f.health, v)
    requires Upgraded(JaegerSteps(t, deleteFails), REGISTRY, j, latest).ok
    ensures PortAt(f, 3, Upgraded(JaegerSteps(t, deleteFails), REGISTRY, j, latest).instance.spec.collector, v)
  {
    UpgradedFromStart(t, deleteFails, j, latest);
    PortThrough(f, t, deleteFails, Reached(latest), j, v);
  }

  lemma RegisteredTablesCarryPort()
    ensures CarriesPort(AdminPortNames(), RegisteredTables())
  {
    AdminNamesApart();
    Carries115();
    Carries117();
    Carries118();
    Carries120();
    Carries122();
  }

  lemma AdminNamesApart()
    ensures Apart(AdminPortNames().admin) && Apart(AdminPortNames().hostPort)
  {
    assert AdminPortNames().admin[0] == AdminPortNames().hostPort[0] == 'a';
  }

  lemma Alone115()
    ensures RowAt(T115, 4, AdminPortNames().health, AdminPortNames().admin)
  {
  }

  lemma Carries115()
    ensures Moves(T115, AdminPortNames().health, AdminPortNames().admin)
  {
    Separate115();
    Alone115();
  }

  lemma Carries117()
    ensures !IsFrom(TlsTable(TLS_PREFIXES), AdminPortNames().admin)
              && !IsTo(TlsTable(TLS_PREFIXES), AdminPortNames().admin)
  {
    assert LastChar(AdminPortNames().admin) == 't';
    forall d | d in TlsTable(TLS_PREFIXES) ensures d.from != AdminPortNames().admin && d.to != AdminPortNames().admin {
      TlsRow(d);
    }
  }

  lemma Acyclic118()
    ensures Acyclic(T118_COLLECTOR)
  {
  }

  lemma Alone118()
    ensures RowAt(T118_COLLECTOR, 4, AdminPortNames().admin, AdminPortNames().hostPort)
  {
  }

  lemma Carries118()
    ensures Moves(T118_COLLECTOR, AdminPortNames().admin, AdminPortNames().hostPort)
  {
    Acyclic118();
    Alone118();
  }

  lemma Carries120()
    ensures var k := AdminPortNames().hostPort; !IsFrom(T120, k) && !IsTo(T120, k)
  {
  }

  lemma Carries122()
    ensures var k := AdminPortNames().hostPort; !IsFrom(T122_COLLECTOR, k) && !IsTo(T122_COLLECTOR, k)
  {
  }

  // --- Running a step again ----------------------------------------------------------------

  /** None of the names in the table occurs in the block. */
  ghost predicate Untouched(o: Opts, table: seq<Rename>) {
    forall d :: d in table ==> d.from !in o && d.to !in o
  }

  lemma {:induction false} NoColons(o: Opts, table: seq<Rename>)
    requires forall d :: d in table ==> d.to !in o
    ensures WithColons(o, table) == o
    decreases |table|
  {
    if table != [] {
      assert table[0] in table;
      assert forall d :: d in table[1..] ==> d in table;
      NoColons(o, table[1..]);
    }
  }

  /** Adding colons lengthens the value of every new port flag that is there. */
  lemma {:induction false} ColonsLengthen(o: Opts, table: seq<Rename>, k: string)
    requires k in o
    ensures k in WithColons(o, table) && |Shown(WithColons(o, table)[k])| >= |Shown(o[k])|
    ensures IsTo(table, k) ==> |Shown(WithColons(o, table)[k])| > |Shown(o[k])|
    decreases |table|
  {
    if table != [] {
      assert table == [table[0]] + table[1..];
      ColonsLengthen(if table[0].to in o then o[table[0].to := One(":" + Shown(o[table[0].to]))] else o, table[1..], k);
    }
  }

  /** No row of the table drops its option. */
  ghost predicate Total(table: seq<Rename>) { forall d :: d in table ==> |d.to| > 0 }

  lemma {:induction false} RenamedMentions(o: Opts, table: seq<Rename>, d: Rename)
    requires Acyclic(table) && Total(table) && d in table && (d.from in o || d.to in o)
    ensures exists e :: e in table && e.to in Renamed(o, table)
    decreases |table|
  {
    var c := table[0];
    assert c in table;
    assert forall x :: x in table[1..] ==> x in table;
    var o1 := RenameOne(o, c);
    if d.to in o {
      NewNameStays(o1, table[1..], d.to);
    } else if c.from in o {
      NewNameStays(o1, table[1..], c.to);
    } else {
      assert d in table[1..];
      RenamedMentions(o1, table[1..], d);
    }
  }

  lemma {:induction false} NewNameStays(o: Opts, table: seq<Rename>, k: string)
    requires k in o && forall d :: d in table ==> d.from != k
    ensures k in Renamed(o, table)
    decreases |table|
  {
    if table != [] {
      assert table[0] in table;
      assert forall x :: x in table[1..] ==> x in table;
      NewNameStays(RenameOne(o, table[0]), table[1..], k);
    }
  }

  lemma UntouchedPorts(o: Opts, table: seq<Rename>)
    requires Untouched(o, table)
    ensures CollectorPorts(o, table) == Reparse(o)
  {
    NothingToRename(o, table);
    NoColons(Reparse(o), table);
    ReparseIdentityIff(Reparse(o));
  }

  /** The 1.18.0 rewriting of the collector block may run twice only where it has nothing to do. */
  lemma PortsTwiceIff(o: Opts, table: seq<Rename>)
    requires Acyclic(table) && Total(table)
    ensures CollectorPorts(CollectorPorts(o, table), table) == CollectorPorts(o, table) <==> Untouched(o, table)
  {
    var p := CollectorPorts(o, table);
    if Untouched(o, table) {
      UntouchedPorts(o, table);
      UntouchedPorts(Reparse(o), table);
    } else {
      var d :| d in table && (d.from in o || d.to in o);
      RenamedMentions(o, table, d);
      var e :| e in table && e.to in Renamed(o, table);
      RenameTableLaws(o, table);
      WithColonsKeys(Migrated(o, table), table);
      NothingToRename(p, table);
      ReparseIdentityIff(p);
      ColonsLengthen(p, table, e.to);
    }
  }

  lemma {:induction false} DroppedTwice(o: Opts, table: seq<Rename>)
    requires Acyclic(table)
    ensures Reparse(Migrated(o, table)) == Migrated(o, table)
    ensures Migrated(Migrated(o, table), table) == Migrated(o, table)
  {
    RenameTableLaws(o, table);
    ReparseIdentityIff(Migrated(o, table));
  }

  /** The whole 1.18.0 step is repeatable exactly when no port flag, old or new, is set. */
  lemma Step118TwiceIff(b: Blocks, ports: seq<Rename>, dropped: seq<Rename>)
    requires Acyclic(ports) && Total(ports) && Acyclic(dropped)
    ensures var once := Step118(b, ports, dropped);
            Step118(once, ports, dropped) == once <==> Untouched(b.collector, ports)
  {
    PortsTwiceIff(b.collector, ports);
    DroppedTwice(b.agent, dropped);
  }

  lemma Total118()
    ensures Total(T118_COLLECTOR)
  {
  }

  lemma AcyclicAgent118()
    ensures Acyclic(T118_AGENT)
  {
    assert forall d :: d in T118_AGENT ==> d.to == "" && d.from != "";
  }

  /** With the registered tables. */
  lemma RegisteredStep118TwiceIff(b: Blocks)
    ensures var once := Step118(b, T118_COLLECTOR, T118_AGENT);
            Step118(once, T118_COLLECTOR, T118_AGENT) == once <==> Untouched(b.collector, T118_COLLECTOR)
  {
    Acyclic118();
    Total118();
    AcyclicAgent118();
    Step118TwiceIff(b, T118_COLLECTOR, T118_AGENT);
  }

  /** The other rename steps are repeatable on every instance. */
  lemma RenameStepTwice(b: Blocks, table: seq<Rename>)
    requires Acyclic(table)
    ensures MigratedAll(MigratedAll(b, table), table) == MigratedAll(b, table)
  {
    RenameTableLaws(b.allInOne, table);
    RenameTableLaws(b.collector, table);
    RenameTableLaws(b.query, table);
    RenameTableLaws(b.agent, table);
    RenameTableLaws(b.ingester, table);
    RenameTableLaws(b.storage, table);
  }

  /** "[...]" is how a list is shown, so a list never reads as the value of a flag that starts otherwise. */
  lemma ListsAreBracketed(ss: seq<string>)
    ensures Bracketed(ss) != "" && Bracketed(ss)[0] == '['
  {
  }

  lemma LookupReparsed(o: Opts, k: string)
    ensures Lookup(Reparse(o), k) == "tls" <==> Lookup(o, k) == "tls"
  {
    if k in o && o[k].Many? {
      ListsAreBracketed(o[k].ss);
      assert "tls"[0] == 't';
    }
  }

  /** The Kafka part of 1.17.0 is repeatable. */
  lemma KafkaTlsTwice(o: Opts)
    ensures KafkaTls(KafkaTls(o)) == KafkaTls(o)
  {
    if KafkaUsesTls(o) {
      var w := WithKafkaTls(o);
      var consumer, producer := "kafka.consumer.authentication", "kafka.producer.authentication";
      assert LastChar(consumer) == 'n' && LastChar(producer) == 'n';
      assert LastChar("kafka.consumer.tls.enabled") == 'd' && LastChar("kafka.producer.tls.enabled") == 'd';
      assert Lookup(w, consumer) == Lookup(o, consumer) && Lookup(w, producer) == Lookup(o, producer);
      LookupReparsed(w, consumer);
      LookupReparsed(w, producer);
      assert WithKafkaTls(Reparse(w)) == Reparse(w);
      ReparseIdentityIff(w);
    }
  }

  /**
   1.22.0 on the query block: the old address flags go, each new one that was not set takes
   the address they stood for, and doing it again changes nothing.
   */
  lemma QueryAddressMoves(o: Opts)
    ensures var r := QueryHostPort(o);
            && QUERY_PORT !in r && QUERY_HOST_PORT !in r
            && (forall k :: k in {QUERY_GRPC, QUERY_HTTP} ==>
                  if k in o then k in r && r[k] == One(Shown(o[k]))
                  else if QueryAddress(o) == "" then k !in r
                  else k in r && r[k] == One(QueryAddress(o)))
            && QueryHostPort(r) == r
  {
    QueryNamesDiffer();
    var r := QueryHostPort(o);
    assert QueryAddress(r) == "";
    assert r - {QUERY_PORT, QUERY_HOST_PORT} == r;
    ReparseIdentityIff(r);
    assert Single(r);
  }

  lemma QueryNamesDiffer()
    ensures QUERY_GRPC !in {QUERY_PORT, QUERY_HOST_PORT, QUERY_HTTP} && QUERY_HTTP !in {QUERY_PORT, QUERY_HOST_PORT}
  {
    assert QUERY_GRPC[6] == 'g' && QUERY_HTTP[6] == 'h' && |QUERY_HTTP| == |QUERY_GRPC| == 27;
    assert |QUERY_PORT| == 10 && |QUERY_HOST_PORT| == 15;
  }

  /** The strings that read as true. */
  const TRUES: set<string> := {"1", "t", "T", "TRUE", "true", "True"}

  /** 1.22.0 on Cassandra options: verification stays off exactly where it was off. */
  lemma VerificationMoves(o: Opts)
    requires CassandraVerify(o).Some?
    ensures var r := CassandraVerify(o).value;
            && VERIFY_HOST !in r && CassandraVerify(r) == Some(r)
            && (VERIFY_HOST in o && o[VERIFY_HOST].s !in TRUES ==> Lookup(r, SKIP_VERIFY) == "true")
            && (VERIFY_HOST !in o || o[VERIFY_HOST].s in TRUES ==>
                  (SKIP_VERIFY in r <==> SKIP_VERIFY in o)
                      && (SKIP_VERIFY in o ==> r[SKIP_VERIFY] == One(Shown(o[SKIP_VERIFY]))))
  {
    assert LastChar(VERIFY_HOST) == 't' && LastChar(SKIP_VERIFY) == 'y';
    var r := CassandraVerify(o).value;
    ReparseIdentityIff(r);
    assert Single(r);
  }

  lemma PortsAgain(f: PortNames, o: Opts, table: seq<Rename>, v: string)
    requires Moves(table, f.admin, f.hostPort) && Has(o, f.hostPort, v)
    requires forall d :: d in table ==> d.from !in o
    ensures Has(CollectorPorts(o, table), f.hostPort, ":" + v)
  {
    NothingToRename(o, table);
    var n: nat :| RowAt(table, n, f.admin, f.hostPort);
    ColonAdded(Migrated(o, table), table, n, f.hostPort, v);
  }
}
