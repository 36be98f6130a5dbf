/**
 A whole reconciliation of the resource itself: the strategy chooser rewrites it, the upgrade
 migrates what came out, and the controller stores the result back
 (pkg/controller/jaeger/jaeger_controller.go, upgrade.go). When does the next one find nothing
 left to change?
 */
module Quiescence {
  import opened Text
  import opened Options
  import opened Migrations
  import opened Upgrade
  import opened MigrationLaws
  import opened MigrationReruns
  import CommonSpec
  import UiOptions
  import S = Strategy

  // --- Options that the steps leave alone --------------------------------------------------

  /** A block that was rewritten holds single values only. */
  ghost predicate Tidied(o: Opts, p: Opts) { p == o || Single(p) }

  ghost predicate TidiedInThree(b: Blocks, c: Blocks) {
    Tidied(b.collector, c.collector) && Tidied(b.ingester, c.ingester) && Tidied(b.storage, c.storage)
  }

  /** The `i`th step mentions the name neither in the collector nor in the ingester or storage block. */
  ghost predicate Skips(t: Tables, i: nat, k: string) {
    && (i == 0 ==> !IsFrom(t.v115, k) && !IsTo(t.v115, k))
    && (i == 1 ==> !IsFrom(t.v117, k) && !IsTo(t.v117, k) && k != CONSUMER_TLS && k != PRODUCER_TLS)
    && (i == 2 ==> !IsFrom(t.v118Collector, k) && !IsTo(t.v118Collector, k))
    && (3 <= i ==> AfterPorts(t, k))
  }

  lemma EarlySkip(t: Tables, deleteFails: bool, i: nat, b: Blocks, k: string)
    requires i < 2 && Skips(t, i, k)
    ensures var r := Apply(t, deleteFails, REGISTRY[i], b); r.Some? && SameInThree(b, r.value, k)
  {
    var table := if i == 0 then t.v115 else t.v117;
    MigratedSameAt(b.collector, table, k);
    MigratedSameAt(b.ingester, table, k);
    MigratedSameAt(b.storage, table, k);
    var m := MigratedAll(b, table);
    if i == 1 {
      KafkaSameAt(m.collector, k);
      KafkaSameAt(m.ingester, k);
      KafkaSameAt(m.storage, k);
      assert Apply(t, deleteFails, REGISTRY[1], b) == Some(Step117(b, t.v117));
    } else {
      assert Apply(t, deleteFails, REGISTRY[0], b) == Some(m);
    }
  }

  lemma SkippedStep(t: Tables, deleteFails: bool, i: nat, b: Blocks, k: string)
    requires i < |REGISTRY| && Skips(t, i, k)
    ensures var r := Apply(t, deleteFails, REGISTRY[i], b); r.Some? ==> SameInThree(b, r.value, k)
  {
    if i < 2 {
      EarlySkip(t, deleteFails, i, b, k);
    } else if i == 2 {
      BystanderAt118(t, b, k);
      assert Apply(t, deleteFails, REGISTRY[2], b) == Some(Step118(b, t.v118Collector, t.v118Agent));
    } else {
      LateBystander(t, deleteFails, i, b, k);
    }
  }

  lemma KafkaTidied(o: Opts)
    requires Single(o)
    ensures Single(KafkaTls(o))
  {
    KafkaTlsSettles(o);
  }

  lemma Tidying117(b: Blocks, table: seq<Rename>)
    ensures TidiedInThree(b, Step117(b, table))
  {
    var m := MigratedAll(b, table);
    KafkaTidied(m.collector);
    KafkaTidied(m.ingester);
    KafkaTidied(m.storage);
  }

  lemma Tidying122(b: Blocks, forCollector: seq<Rename>, forAgent: seq<Rename>, forQuery: seq<Rename>)
    ensures var r := Step122(b, forCollector, forAgent, forQuery); r.Some? ==> TidiedInThree(b, r.value)
  {
  }

  lemma TidyingAll(b: Blocks, table: seq<Rename>)
    ensures TidiedInThree(b, MigratedAll(b, table))
  {
  }

  lemma TidyingEarly(t: Tables, deleteFails: bool, i: nat, b: Blocks)
    requires i < 3
    ensures var r := Apply(t, deleteFails, REGISTRY[i], b); r.Some? ==> TidiedInThree(b, r.value)
  {
    var r := Apply(t, deleteFails, REGISTRY[i], b);
    if i == 0 {
      TidyingAll(b, t.v115);
      assert r == Some(MigratedAll(b, t.v115));
    } else if i == 1 {
      Tidying117(b, t.v117);
      assert r == Some(Step117(b, t.v117));
    } else {
      assert r == Some(Step118(b, t.v118Collector, t.v118Agent));
    }
  }

  lemma TidyingStep(t: Tables, deleteFails: bool, i: nat, b: Blocks)
    requires i < |REGISTRY|
    ensures var r := Apply(t, deleteFails, REGISTRY[i], b); r.Some? ==> TidiedInThree(b, r.value)
  {
    var r := Apply(t, deleteFails, REGISTRY[i], b);
    if i < 3 {
      TidyingEarly(t, deleteFails, i, b);
    } else if i == 3 {
      TidyingAll(b, t.v120);
      assert r == Some(MigratedAll(b, t.v120));
    } else if i == 4 {
      Tidying122(b, t.v122Collector, t.v122Agent, t.v122Query);
      assert r == Step122(b, t.v122Collector, t.v122Agent, t.v122Query);
    } else {
      LastStepsKeepOptions(t, deleteFails, i, b);
    }
  }

  /** Both, along a run over a stretch of the registry that skips the name. */
  ghost predicate Carried(b: Blocks, c: Blocks, k: string) { SameInThree(b, c, k) && TidiedInThree(b, c) }

  lemma CarriedOn(b: Blocks, c: Blocks, d: Blocks, k: string)
    requires Carried(b, c, k) && Carried(c, d, k)
    ensures Carried(b, d, k)
  {
  }

  ghost predicate SkipsAll(t: Tables, m: nat, n: nat, k: string) { forall i :: m <= i < n ==> Skips(t, i, k) }

  lemma CarriedRun(t: Tables, deleteFails: bool, m: nat, n: nat, j: Instance<Blocks>, k: string)
    requires m <= n <= |REGISTRY| && SkipsAll(t, m, n, k)
    ensures var r := RunSteps(JaegerSteps(t, deleteFails), REGISTRY[m..n], j);
            r.ok ==> Carried(j.spec, r.instance.spec, k)
  {
    ghost var holds := (q: nat, x: Blocks) => Carried(j.spec, x, k);
    forall q: nat, x: Instance<Blocks> | m <= q < n && holds(q, x.spec)
        && JaegerSteps(t, deleteFails)(REGISTRY[q], x).Done?
      ensures holds(q + 1, JaegerSteps(t, deleteFails)(REGISTRY[q], x).instance.spec)
    {
      SkippedStep(t, deleteFails, q, x.spec, k);
      TidyingStep(t, deleteFails, q, x.spec);
      CarriedOn(j.spec, x.spec, JaegerSteps(t, deleteFails)(REGISTRY[q], x).instance.spec, k);
    }
    RunStretch(JaegerSteps(t, deleteFails), REGISTRY, m, n, holds, j);
  }

  /** Nothing but the blocks and the access review changes, and that only where there was none. */
  ghost predicate SameShape(b: Blocks, c: Blocks) { c.storageType == b.storageType && (b.sar.Some? ==> c.sar == b.sar) }

  lemma ShapeRun(t: Tables, deleteFails: bool, m: nat, n: nat, j: Instance<Blocks>)
    requires m <= n <= |REGISTRY|
    ensures var r := RunSteps(JaegerSteps(t, deleteFails), REGISTRY[m..n], j);
            r.ok ==> SameShape(j.spec, r.instance.spec)
  {
    ghost var holds := (q: nat, x: Blocks) => SameShape(j.spec, x);
    RunStretch(JaegerSteps(t, deleteFails), REGISTRY, m, n, holds, j);
  }

  // --- The names that matter, in the registered tables -------------------------------------

  lemma Shapes115(d: Rename)
    requires d in T115
    ensures d.from != "" && d.from[0] in {'c', 'd', 'h'} && LastChar(d.from) != 'd'
    ensures d.to == "" || (d.to[0] in {'a', 'c', 'r'} && LastChar(d.to) != 'd')
  {
    First115(d);
    Last115(d);
  }

  lemma First115(d: Rename)
    requires d in T115
    ensures d.from != "" && d.from[0] in {'c', 'd', 'h'} && (d.to == "" || d.to[0] in {'a', 'c', 'r'})
  {
    assert T115[0].to[0] == 'c' && T115[1].to[0] == T115[2].to[0] == T115[3].to[0] == 'r' && T115[4].to[0] == 'a';
  }

  lemma Last115(d: Rename)
    requires d in T115
    ensures LastChar(d.from) in {'a', 's', 't', '2'} && LastChar(d.to) in {'a', 's', 't', ' '}
  {
  }

  /** A name that does not end like those of the TLS table, ".tls" and ".tls.enabled". */
  predicate NoTlsName(k: string) { |k| >= 9 && k[|k| - 3] != 't' && (LastChar(k) != 'd' || k[|k| - 9] != 's') }

  lemma TlsRowShape(d: Rename)
    requires d in TlsTable(TLS_PREFIXES)
    ensures |d.from| >= 3 && d.from[|d.from| - 3] == 't'
    ensures |d.to| >= 9 && LastChar(d.to) == 'd' && d.to[|d.to| - 9] == 's'
  {
    TlsTableRows(TLS_PREFIXES, d);
    var p :| p in TLS_PREFIXES && d == Rename(p + ".tls", p + ".tls.enabled");
    TlsNames(p, p + ".tls", p + ".tls.enabled");
  }

  lemma TlsNames(p: string, from: string, to: string)
    requires from == p + ".tls" && to == p + ".tls.enabled"
    ensures |from| >= 3 && from[|from| - 3] == 't' && |to| >= 9 && LastChar(to) == 'd' && to[|to| - 9] == 's'
  {
    assert from[|p| + 1] == ".tls"[1] == 't';
    assert to[|p| + 3] == ".tls.enabled"[3] == 's';
    assert to[|p| + 11] == ".tls.enabled"[11] == 'd';
  }

  lemma SkipsTls(k: string)
    requires NoTlsName(k)
    ensures !IsFrom(TlsTable(TLS_PREFIXES), k) && !IsTo(TlsTable(TLS_PREFIXES), k) && k != CONSUMER_TLS
              && k != PRODUCER_TLS
  {
    forall d | d in TlsTable(TLS_PREFIXES) ensures d.from != k && d.to != k { TlsRowShape(d); }
    KafkaTlsNames();
  }

  lemma KafkaTlsNames()
    ensures !NoTlsName(CONSUMER_TLS) && !NoTlsName(PRODUCER_TLS)
  {
    assert |CONSUMER_TLS| == |PRODUCER_TLS| == 26;
    assert CONSUMER_TLS[17] == PRODUCER_TLS[17] == 's' && LastChar(CONSUMER_TLS) == LastChar(PRODUCER_TLS) == 'd';
  }

  lemma KafkaSkips(t: Tables, i: nat, k: string)
    requires t == RegisteredTables() && k != "" && k[0] == 'k' && (i == 1 ==> NoTlsName(k))
    ensures Skips(t, i, k)
  {
    forall d | d in T115 ensures d.from != k && d.to != k { First115(d); }
    KafkaNameApart(k);
    if i == 1 { SkipsTls(k); }
  }

  /** Names of the storage that no table mentions: by their first letters and their last. */
  predicate StorageName(k: string) {
    |k| > 1 && (k[0] == 'e' || (k[0] == 'c' && LastChar(k) == 'd')) && (LastChar(k) == 's' ==> k[|k| - 2] == 'l')
        && LastChar(k) != 't'
  }

  lemma Shapes120(d: Rename)
    requires d in T120
    ensures |d.from| > 1 && LastChar(d.from) == 's' && d.from[|d.from| - 2] == 'n' && d.to != ""
              && LastChar(d.to) == 't'
    ensures d.from[0] == d.to[0] == 'e'
  {
  }

  lemma StorageSkips(t: Tables, i: nat, k: string)
    requires t == RegisteredTables() && StorageName(k) && (i == 1 ==> NoTlsName(k))
    ensures Skips(t, i, k)
  {
    forall d | d in T115 ensures d.from != k && d.to != k { Shapes115(d); }
    if i == 1 { SkipsTls(k); }
    SkipsPorts(k);
    SkipsLate(k);
  }

  lemma SkipsPorts(k: string)
    requires StorageName(k)
    ensures !IsFrom(T118_COLLECTOR, k) && !IsTo(T118_COLLECTOR, k)
  {
    if IsFrom(T118_COLLECTOR, k) || IsTo(T118_COLLECTOR, k) { PortNameShape(k); }
  }

  lemma SkipsLate(k: string)
    requires StorageName(k)
    ensures AfterPorts(RegisteredTables(), k)
  {
    forall d | d in T120 ensures d.from != k && d.to != k { Shapes120(d); }
    NameShapes122();
    CassandraNameShapes();
    assert LastChar(VERIFY_HOST) == 't' && LastChar(SKIP_VERIFY) == 'y';
  }

  const ES_TLS := "es.tls"
  const ES_SKIP := "es.tls.skip-host-verify"
  const ES_CA := "es.tls.ca"
  const ES_URLS := "es.server-urls"
  const ES_ARCHIVE := "es-archive.enabled"
  const CASSANDRA_ARCHIVE := "cassandra-archive.enabled"

  lemma StorageNames()
    ensures StorageName(ES_TLS) && StorageName(ES_SKIP) && StorageName(ES_CA) && StorageName(ES_URLS)
    ensures NoTlsName(ES_SKIP) && NoTlsName(ES_CA) && NoTlsName(ES_URLS)
  {
  }

  lemma ArchiveNames()
    ensures StorageName(ES_ARCHIVE) && StorageName(CASSANDRA_ARCHIVE) && NoTlsName(ES_ARCHIVE)
              && NoTlsName(CASSANDRA_ARCHIVE)
  {
  }

  lemma EsTlsIsRenamed()
    ensures IsFrom(TlsTable(TLS_PREFIXES), ES_TLS)
  {
    assert TLS_PREFIXES[2] == "es";
    TlsTableHas(TLS_PREFIXES, 2);
    assert Rename("es" + ".tls", "es" + ".tls.enabled") in TlsTable(TLS_PREFIXES);
    assert "es" + ".tls" == ES_TLS;
  }

  lemma {:induction false} TlsTableHas(prefixes: seq<string>, i: nat)
    requires i < |prefixes|
    ensures Rename(prefixes[i] + ".tls", prefixes[i] + ".tls.enabled") in TlsTable(prefixes)
  {
    if i > 0 { TlsTableHas(prefixes[1..], i - 1); }
  }

  // --- What an upgrade makes of the storage options ----------------------------------------

  /** The options that For reads are as they were, up to lists that became text. */
  ghost predicate StorageCarried(o: Opts, p: Opts) {
    && SameAt(o, p, ES_SKIP) && SameAt(o, p, ES_CA) && SameAt(o, p, ES_URLS)
    && SameAt(o, p, ES_ARCHIVE) && SameAt(o, p, CASSANDRA_ARCHIVE) && Tidied(o, p)
  }

  /** But for the TLS flag, which 1.17.0 takes out when it is due. */
  ghost predicate TlsFate(o: Opts, p: Opts, due: bool) {
    if due then ES_TLS !in p && Single(p) else SameAt(o, p, ES_TLS)
  }

  lemma SkipsAllStorage(t: Tables, m: nat, n: nat, k: string)
    requires t == RegisteredTables() && StorageName(k) && (NoTlsName(k) || !(m <= 1 < n))
    ensures SkipsAll(t, m, n, k)
  {
    forall i | m <= i < n ensures Skips(t, i, k) { StorageSkips(t, i, k); }
  }

  lemma CarriedStorage(t: Tables, deleteFails: bool, m: nat, n: nat, j: Instance<Blocks>, k: string)
    requires t == RegisteredTables() && m <= n <= |REGISTRY| && StorageName(k) && (NoTlsName(k) || !(m <= 1 < n))
    requires RunSteps(JaegerSteps(t, deleteFails), REGISTRY[m..n], j).ok
    ensures var o, p := j.spec.storage, RunSteps(JaegerSteps(t, deleteFails), REGISTRY[m..n], j).instance.spec.storage;
            SameAt(o, p, k) && Tidied(o, p)
  {
    SkipsAllStorage(t, m, n, k);
    CarriedRun(t, deleteFails, m, n, j, k);
  }

  lemma TlsFlagGone(t: Tables, deleteFails: bool, m: nat, n: nat, j: Instance<Blocks>)
    requires t == RegisteredTables() && m <= 1 < n <= |REGISTRY|
    requires RunSteps(JaegerSteps(t, deleteFails), REGISTRY[m..n], j).ok
    ensures var p := RunSteps(JaegerSteps(t, deleteFails), REGISTRY[m..n], j).instance.spec.storage;
            ES_TLS !in p && Single(p)
  {
    SettledRegistered(t, deleteFails, m, n, j);
    EsTlsIsRenamed();
    TlsNameTaken(t, RunSteps(JaegerSteps(t, deleteFails), REGISTRY[m..n], j).instance.spec.storage, ES_TLS);
  }

  lemma TlsNameTaken(t: Tables, p: Opts, k: string)
    requires Settled(p, t.v117) && IsFrom(t.v117, k)
    ensures k !in p && Single(p)
  {
  }

  lemma SettledRegistered(t: Tables, deleteFails: bool, m: nat, n: nat, j: Instance<Blocks>)
    requires t == RegisteredTables() && m <= 1 < n <= |REGISTRY|
    requires RunSteps(JaegerSteps(t, deleteFails), REGISTRY[m..n], j).ok
    ensures Settled117(t, RunSteps(JaegerSteps(t, deleteFails), REGISTRY[m..n], j).instance.spec)
  {
    RegularAsRegistered(t);
    SettledRegular(t, deleteFails, m, n, j);
  }

  lemma SettledRegular(t: Tables, deleteFails: bool, m: nat, n: nat, j: Instance<Blocks>)
    requires Regular(t) && m <= 1 < n <= |REGISTRY|
    requires RunSteps(JaegerSteps(t, deleteFails), REGISTRY[m..n], j).ok
    ensures Settled117(t, RunSteps(JaegerSteps(t, deleteFails), REGISTRY[m..n], j).instance.spec)
  {
    FirstRunSettles(t, deleteFails, m, n, j);
    assert SettledAt(t, 1, RunSteps(JaegerSteps(t, deleteFails), REGISTRY[m..n], j).instance.spec);
  }

  lemma StorageAfter(t: Tables, deleteFails: bool, m: nat, n: nat, j: Instance<Blocks>)
    requires t == RegisteredTables() && m <= n <= |REGISTRY|
    requires RunSteps(JaegerSteps(t, deleteFails), REGISTRY[m..n], j).ok
    ensures var p := RunSteps(JaegerSteps(t, deleteFails), REGISTRY[m..n], j).instance.spec.storage;
            StorageCarried(j.spec.storage, p) && TlsFate(j.spec.storage, p, m <= 1 < n)
  {
    StorageNames();
    ArchiveNames();
    CarriedStorage(t, deleteFails, m, n, j, ES_SKIP);
    CarriedStorage(t, deleteFails, m, n, j, ES_CA);
    CarriedStorage(t, deleteFails, m, n, j, ES_URLS);
    CarriedStorage(t, deleteFails, m, n, j, ES_ARCHIVE);
    CarriedStorage(t, deleteFails, m, n, j, CASSANDRA_ARCHIVE);
    if m <= 1 < n { TlsFlagGone(t, deleteFails, m, n, j); } else { CarriedStorage(t, deleteFails, m, n, j, ES_TLS); }
  }

  // --- What it makes of the Kafka options --------------------------------------------------

  /** The options of a provisioned Kafka: TLS by name `tls`, and asked for by name `auth`. */
  ghost predicate KafkaOptions(k: Opts, auth: string, tls: string) {
    && auth in k && k[auth] == One("tls") && tls in k && k[tls] == One("true") && Single(k)
    && forall x :: x in k ==> x != "" && x[0] == 'k' && (x != tls ==> NoTlsName(x))
  }

  ghost predicate HasAll(o: Opts, k: Opts) { Single(o) && forall x :: x in k ==> x in o && o[x] == k[x] }

  lemma SkipsAllKafka(t: Tables, m: nat, n: nat, k: string)
    requires t == RegisteredTables() && k != "" && k[0] == 'k' && (NoTlsName(k) || !(m <= 1 < n))
    ensures SkipsAll(t, m, n, k)
  {
    forall i | m <= i < n ensures Skips(t, i, k) { KafkaSkips(t, i, k); }
  }

  lemma CarriedKafka(t: Tables, deleteFails: bool, m: nat, n: nat, j: Instance<Blocks>, k: string)
    requires t == RegisteredTables() && m <= n <= |REGISTRY| && k != "" && k[0] == 'k'
               && (NoTlsName(k) || !(m <= 1 < n))
    requires RunSteps(JaegerSteps(t, deleteFails), REGISTRY[m..n], j).ok
    ensures Carried(j.spec, RunSteps(JaegerSteps(t, deleteFails), REGISTRY[m..n], j).instance.spec, k)
  {
    SkipsAllKafka(t, m, n, k);
    CarriedRun(t, deleteFails, m, n, j, k);
  }

  /** A block that has the options still has them, although 1.17.0 may rename onto one of them. */
  lemma StillHas(o: Opts, p: Opts, k: Opts, auth: string, tls: string, due: bool)
    requires KafkaOptions(k, auth, tls) && HasAll(o, k) && Tidied(o, p) && auth != tls
    requires forall x :: x in k && (x != tls || !due) ==> SameAt(o, p, x)
    requires due ==> (Lookup(p, auth) == "tls" ==> Lookup(p, tls) == "true")
    ensures HasAll(p, k)
  {
    forall x | x in k ensures x in p && p[x] == k[x] {
      if x == tls && due { assert SameAt(o, p, auth); }
    }
  }

  lemma KafkaAfter(t: Tables, deleteFails: bool, m: nat, n: nat, j: Instance<Blocks>, k: Opts, auth: string,
      tls: string)
    requires t == RegisteredTables() && m <= n <= |REGISTRY| && KafkaOptions(k, auth, tls)
    requires (auth == PRODUCER_AUTH && tls == PRODUCER_TLS) || (auth == CONSUMER_AUTH && tls == CONSUMER_TLS)
    requires RunSteps(JaegerSteps(t, deleteFails), REGISTRY[m..n], j).ok
    ensures var b := RunSteps(JaegerSteps(t, deleteFails), REGISTRY[m..n], j).instance.spec;
            && (HasAll(j.spec.collector, k) ==> HasAll(b.collector, k))
            && (HasAll(j.spec.ingester, k) ==> HasAll(b.ingester, k))
  {
    var b := RunSteps(JaegerSteps(t, deleteFails), REGISTRY[m..n], j).instance.spec;
    var due := m <= 1 < n;
    KafkaNamesDiffer();
    if due { SettledRegistered(t, deleteFails, m, n, j); }
    forall x | x in k && (x != tls || !due) ensures Carried(j.spec, b, x) { CarriedKafka(t, deleteFails, m, n, j, x); }
    assert Carried(j.spec, b, auth);
    if HasAll(j.spec.collector, k) { StillHas(j.spec.collector, b.collector, k, auth, tls, due); }
    if HasAll(j.spec.ingester, k) { StillHas(j.spec.ingester, b.ingester, k, auth, tls, due); }
  }

  lemma ProducerOptions(name: string, ns: string)
    ensures KafkaOptions(S.KafkaFor(name, ns).producer, PRODUCER_AUTH, PRODUCER_TLS)
  {
    forall x | x in S.KafkaFor(name, ns).producer
      ensures x != "" && x[0] == 'k' && (x != PRODUCER_TLS ==> NoTlsName(x))
    {
      assert x in PRODUCER_NAMES;
      ProducerName(x);
    }
  }

  lemma ConsumerOptions(name: string, ns: string)
    ensures KafkaOptions(S.KafkaFor(name, ns).consumer, CONSUMER_AUTH, CONSUMER_TLS)
  {
    forall x | x in S.KafkaFor(name, ns).consumer
      ensures x != "" && x[0] == 'k' && (x != CONSUMER_TLS ==> NoTlsName(x))
    {
      assert x in CONSUMER_NAMES;
      ConsumerName(x);
    }
  }

  const PRODUCER_NAMES := {S.PRODUCER_BROKERS, PRODUCER_AUTH, PRODUCER_TLS,
                           "kafka.producer.tls.ca", "kafka.producer.tls.cert", "kafka.producer.tls.key"}
  const CONSUMER_NAMES := {S.CONSUMER_BROKERS, CONSUMER_AUTH, CONSUMER_TLS,
                           "kafka.consumer.tls.ca", "kafka.consumer.tls.cert", "kafka.consumer.tls.key"}

  lemma ProducerName(x: string)
    requires x in PRODUCER_NAMES
    ensures x != "" && x[0] == 'k' && (x != PRODUCER_TLS ==> NoTlsName(x))
  {
  }

  lemma ConsumerName(x: string)
    requires x in CONSUMER_NAMES
    ensures x != "" && x[0] == 'k' && (x != CONSUMER_TLS ==> NoTlsName(x))
  {
  }

  // --- Choosing the strategy of the migrated instance --------------------------------------

  /** `v` is `c` after an upgrade: other options, and an access review where there was none. */
  ghost predicate Migrates(c: S.Instance, v: S.Instance) {
    && v == c.(collector := v.collector, ingester := v.ingester, storage := c.storage.(options := v.storage.options),
               ingress := c.ingress.(sar := v.ingress.sar))
    && (c.ingress.sar.Some? ==> v.ingress.sar == c.ingress.sar)
    && SameAt(c.collector, v.collector, S.PRODUCER_BROKERS) && SameAt(c.ingester, v.ingester, S.CONSUMER_BROKERS)
    && StorageCarried(c.storage.options, v.storage.options)
  }

  /** What is provisioned for `c` is still there in `v`. */
  ghost predicate KafkaCarried(c: S.Instance, v: S.Instance, k: S.Kafka) {
    && (HasAll(c.collector, k.producer) ==> HasAll(v.collector, k.producer))
    && (HasAll(c.ingester, k.consumer) ==> HasAll(v.ingester, k.consumer))
  }

  /** The only thing that For may change: the dependencies job becomes enabled. */
  function WithDependencies(s: S.Storage): S.Storage {
    s.(depsEnabled := if S.AutoDependencies(s) then CommonSpec.OrElse(s.depsEnabled, Some(true)) else s.depsEnabled)
  }

  function Again(v: S.Instance): S.Instance { v.(storage := WithDependencies(v.storage)) }

  lemma StorageAgain(s: S.Storage, o: Opts)
    requires S.NormalStorage(s) == s
    ensures S.NormalStorage(s.(options := o)) == WithDependencies(s.(options := o))
  {
  }

  lemma IngressAgain(env: S.Env, ns: string, i: S.Ingress, sar: Option<string>)
    requires S.NormalIngress(env, ns, i) == i && (i.sar.Some? ==> sar == i.sar)
    ensures S.NormalIngress(env, ns, i.(sar := sar)) == i.(sar := sar)
  {
  }

  lemma PreparedAtRest(env: S.Env, c: S.Instance)
    requires S.Normal(env, c)
    ensures S.Prepared(env, c) == c
    ensures UiOptions.RewrittenDocument(S.WishesFor(env, c.storage, c.ingress), c.ui) == Some(c.ui)
  {
    var p := S.Prepared(env, c);
    assert p.ui == c.ui;
  }

  lemma PreparedAgain(env: S.Env, c: S.Instance, v: S.Instance)
    requires S.Normal(env, c) && Migrates(c, v)
    ensures S.Prepared(env, v) == Again(v)
  {
    PreparedAtRest(env, c);
    StorageAgain(c.storage, v.storage.options);
    IngressAgain(env, c.ns, c.ingress, v.ingress.sar);
    assert S.Prepared(env, c).storage == c.storage && S.Prepared(env, c).ingress == c.ingress;
    assert S.Prepared(env, c).common == c.common;
  }

  /** A list is printed in brackets and does not read like "true" or nothing. */
  lemma ListIsNoWord(ss: seq<string>)
    ensures !EqualFold(Bracketed(ss), "true") && Bracketed(ss) != ""
  {
    assert ToLower(Bracketed(ss))[0] == '[' && ToLower("true")[0] == 't';
  }

  lemma FlagCarried(o: Opts, p: Opts, k: string)
    requires SameAt(o, p, k) && Tidied(o, p)
    ensures EqualFold(Lookup(p, k), "true") <==> EqualFold(Lookup(o, k), "true")
  {
    if k in o && o[k].Many? { ListIsNoWord(o[k].ss); }
    NothingIsNotTrue();
  }

  lemma NothingIsNotTrue()
    ensures !EqualFold("", "true")
  {
    assert |ToLower("")| == 0 && |ToLower("true")| == 4;
  }

  lemma ArchiveCarried(o: Opts, p: Opts)
    requires StorageCarried(o, p)
    ensures UiOptions.ArchiveWanted(p) == UiOptions.ArchiveWanted(o)
  {
    FlagCarried(o, p, ES_ARCHIVE);
    FlagCarried(o, p, CASSANDRA_ARCHIVE);
  }

  lemma UiAgain(env: S.Env, c: S.Instance, v: S.Instance)
    requires S.Normal(env, c) && Migrates(c, v)
    ensures UiOptions.RewrittenDocument(S.WishesFor(env, Again(v).storage, v.ingress), v.ui) == Some(v.ui)
  {
    PreparedAtRest(env, c);
    ArchiveCarried(c.storage.options, v.storage.options);
    var was, now := S.WishesFor(env, c.storage, c.ingress), S.WishesFor(env, Again(v).storage, v.ingress);
    assert now == was || now == was.(hideTab := false);
    UiOptions.DocumentWithoutHiding(was, c.ui);
  }

  lemma NormalisedAgain(env: S.Env, c: S.Instance, v: S.Instance)
    requires S.Normal(env, c) && Migrates(c, v)
    ensures S.Normalised(env, v) == Some(Again(v))
  {
    PreparedAgain(env, c, v);
    UiAgain(env, c, v);
  }

  lemma ReparsedWith(o: Opts, k: Opts)
    requires Single(k)
    ensures Reparse(o + k) == o <==> HasAll(o, k)
  {
    ReparseIdentityIff(o + k);
    if HasAll(o, k) { assert o + k == o; }
    if Reparse(o + k) == o {
      forall x | x in k ensures x in o && o[x] == k[x] { assert Reparse(o + k)[x] == One(Shown(k[x])); }
    }
  }

  lemma ProvisionedAgain(c: S.Instance, v: S.Instance, k: S.Kafka)
    requires Migrates(c, v) && KafkaCarried(c, v, k) && S.Plain(k) && S.Provisioned(c, k) == c
    ensures S.Provisioned(Again(v), k) == Again(v)
  {
    ReparsedWith(c.collector, k.producer);
    ReparsedWith(c.ingester, k.consumer);
    ReparsedWith(v.collector, k.producer);
    ReparsedWith(v.ingester, k.consumer);
  }

  lemma BuiltParts(c: S.Instance, k: S.Kafka)
    requires S.Built(c, k) == c
    ensures S.WithSchema(c.storage) == c.storage
    ensures S.BranchOf(c) == S.Streaming(true) ==> S.Provisioned(c, k) == c
  {
  }

  lemma SchemaAgain(s: S.Storage, o: Opts)
    requires S.WithSchema(s) == s
    ensures S.WithSchema(WithDependencies(s.(options := o))) == WithDependencies(s.(options := o))
  {
  }

  lemma SameBranch(c: S.Instance, v: S.Instance)
    requires Migrates(c, v)
    ensures S.BranchOf(Again(v)) == S.BranchOf(c)
  {
  }

  lemma BuiltAgain(c: S.Instance, v: S.Instance, k: S.Kafka)
    requires Migrates(c, v) && KafkaCarried(c, v, k) && S.Plain(k) && S.Built(c, k) == c
    ensures S.Built(Again(v), k) == Again(v)
  {
    BuiltParts(c, k);
    SchemaAgain(c.storage, v.storage.options);
    SameBranch(c, v);
    if S.BranchOf(c) == S.Streaming(true) { ProvisionedAgain(c, v, k); }
    S.BuiltWhole(Again(v), k);
  }

  /** On the migrated instance For takes the same branch and changes nothing but the dependencies job. */
  lemma ChosenAgain(env: S.Env, c: S.Instance, v: S.Instance)
    requires S.Rests(env, c) && Migrates(c, v) && KafkaCarried(c, v, S.KafkaFor(c.name, c.ns))
    ensures S.Chosen(env, v) == Some((Again(v), S.BranchOf(c)))
  {
    NormalisedAgain(env, c, v);
    S.KafkaIsPlain(c.name, c.ns);
    BuiltAgain(c, v, S.KafkaFor(c.name, c.ns));
    SameBranch(c, v);
  }

  // --- The reconciliation of a resource ----------------------------------------------------

  /** The version in the status: not set yet, not a version, or a version. */
  datatype Status = Unset | Unreadable | At(version: Version)

  /** A resource: what For sees of it, and the option blocks that only the upgrade sees. */
  datatype Resource = Resource(status: Status, instance: S.Instance, allInOne: Opts, query: Opts, agent: Opts,
      ingress: Opts)

  function BlocksOf(r: Resource): Blocks {
    Blocks(r.allInOne, r.instance.collector, r.query, r.agent, r.instance.ingester, r.instance.storage.options,
        r.ingress,
           r.instance.ingress.sar, r.instance.storage.typ)
  }

  function WithBlocks(r: Resource, b: Blocks): Resource {
    var j := r.instance;
    r.(allInOne := b.allInOne, query := b.query, agent := b.agent, ingress := b.ingress,
       instance := j.(collector := b.collector, ingester := b.ingester, storage := j.storage.(options := b.storage),
                      ingress := j.ingress.(sar := b.sar)))
  }

  /** applyUpgrades; None is an error. */
  function WithUpgrades(fails: bool, latest: Version, r: Resource): Option<Resource> {
    if r.status.Unreadable? then None
    else if r.status.Unset? || r.status == At(latest) then Some(r.(status := At(latest)))
    else
      var u := Upgraded(JaegerSteps(RegisteredTables(), fails), REGISTRY, Instance(Some(r.status.version), BlocksOf(r)),
          latest);
      if u.ok then Some(WithBlocks(r, u.instance.spec).(status := At(latest))) else None
  }

  /** The resource that Reconcile stores back; None where it fails on the way. */
  function Reconciled(env: S.Env, fails: bool, latest: Version, r: Resource): Option<Resource> {
    var c := S.Chosen(env, r.instance);
    if c.None? then None else WithUpgrades(fails, latest, r.(instance := c.value.0))
  }

  /** 1.17.0 is among the steps of the upgrade. */
  predicate TlsRenameDue(status: Status, latest: Version) {
    status.At? && AtMost(START, status.version) && Less(status.version, V117) && AtMost(V117, latest)
  }

  /** What a run of the upgrade leaves of the blocks; `k` is the Kafka that may have been provisioned. */
  ghost predicate BlocksCarried(b: Blocks, c: Blocks, k: S.Kafka) {
    && SameShape(b, c) && StorageCarried(b.storage, c.storage)
    && SameAt(b.collector, c.collector, S.PRODUCER_BROKERS) && SameAt(b.ingester, c.ingester, S.CONSUMER_BROKERS)
    && (HasAll(b.collector, k.producer) ==> HasAll(c.collector, k.producer))
    && (HasAll(b.ingester, k.consumer) ==> HasAll(c.ingester, k.consumer))
  }

  ghost predicate KafkaNamed(k: S.Kafka) {
    KafkaOptions(k.producer, PRODUCER_AUTH, PRODUCER_TLS) && KafkaOptions(k.consumer, CONSUMER_AUTH, CONSUMER_TLS)
  }

  lemma KafkaIsNamed(name: string, ns: string)
    ensures KafkaNamed(S.KafkaFor(name, ns))
  {
    ProducerOptions(name, ns);
    ConsumerOptions(name, ns);
  }

  lemma BlocksAfter(t: Tables, fails: bool, m: nat, n: nat, j: Instance<Blocks>, k: S.Kafka)
    requires t == RegisteredTables() && m <= n <= |REGISTRY| && KafkaNamed(k)
    requires RunSteps(JaegerSteps(t, fails), REGISTRY[m..n], j).ok
    ensures var b := RunSteps(JaegerSteps(t, fails), REGISTRY[m..n], j).instance.spec;
            BlocksCarried(j.spec, b, k) && TlsFate(j.spec.storage, b.storage, m <= 1 < n)
  {
    StorageAfter(t, fails, m, n, j);
    ShapeRun(t, fails, m, n, j);
    BrokersAfter(t, fails, m, n, j);
    KafkaAfter(t, fails, m, n, j, k.producer, PRODUCER_AUTH, PRODUCER_TLS);
    KafkaAfter(t, fails, m, n, j, k.consumer, CONSUMER_AUTH, CONSUMER_TLS);
  }

  lemma DueIff(current: Version, latest: Version)
    requires AtMost(START, current)
    ensures Reached(current) <= 1 < Reached(latest) <==> TlsRenameDue(At(current), latest)
  {
  }

  lemma UpgradedIsRun(t: Tables, fails: bool, latest: Version, j: Instance<Blocks>)
    requires j.version.Some? && AtMost(START, j.version.value) && AtMost(j.version.value, latest)
    requires Upgraded(JaegerSteps(t, fails), REGISTRY, j, latest).ok
    ensures Reached(j.version.value) <= Reached(latest) <= |REGISTRY|
    ensures var r := RunSteps(JaegerSteps(t, fails), REGISTRY[Reached(j.version.value)..Reached(latest)], j);
            r.ok && Upgraded(JaegerSteps(t, fails), REGISTRY, j, latest).instance.spec == r.instance.spec
  {
    PlanIsStretch(j.version.value, latest);
    RunsThePlan(JaegerSteps(t, fails), REGISTRY, latest, j, Reached(j.version.value), Reached(latest));
  }

  lemma RunsThePlan(steps: Steps<Blocks>, list: seq<Version>, latest: Version, j: Instance<Blocks>, m: nat, n: nat)
    requires j.version.Some? && AtMost(START, j.version.value) && AtMost(j.version.value, latest)
    requires m <= n <= |list| && Plan(list, j.version.value, latest) == list[m..n]
    requires Upgraded(steps, list, j, latest).ok
    ensures var r := RunSteps(steps, list[m..n], j);
            r.ok && Upgraded(steps, list, j, latest).instance.spec == r.instance.spec
  {
  }

  lemma UpgradedAfter(t: Tables, fails: bool, latest: Version, j: Instance<Blocks>, k: S.Kafka)
    requires t == RegisteredTables() && KafkaNamed(k)
    requires j.version.Some? && AtMost(START, j.version.value) && AtMost(j.version.value, latest)
    requires Upgraded(JaegerSteps(t, fails), REGISTRY, j, latest).ok
    ensures var b := Upgraded(JaegerSteps(t, fails), REGISTRY, j, latest).instance.spec;
            BlocksCarried(j.spec, b, k) && TlsFate(j.spec.storage, b.storage, TlsRenameDue(At(j.version.value), latest))
  {
    DueIff(j.version.value, latest);
    UpgradedIsRun(t, fails, latest, j);
    BlocksAfter(t, fails, Reached(j.version.value), Reached(latest), j, k);
  }

  lemma NothingCarried(b: Blocks, k: S.Kafka)
    ensures BlocksCarried(b, b, k) && TlsFate(b.storage, b.storage, false)
  {
  }

  /** Versions that ManagedInstance does not handle. */
  lemma LeftAlone(steps: Steps<Blocks>, j: Instance<Blocks>, latest: Version)
    requires j.version.Some? && !(AtMost(START, j.version.value) && AtMost(j.version.value, latest))
    ensures Upgraded(steps, REGISTRY, j, latest).instance == j && !TlsRenameDue(At(j.version.value), latest)
  {
  }

  lemma UpgradedCarries(t: Tables, fails: bool, latest: Version, j: Instance<Blocks>, k: S.Kafka)
    requires t == RegisteredTables() && KafkaNamed(k) && j.version.Some?
    requires Upgraded(JaegerSteps(t, fails), REGISTRY, j, latest).ok
    ensures var b := Upgraded(JaegerSteps(t, fails), REGISTRY, j, latest).instance.spec;
            BlocksCarried(j.spec, b, k) && TlsFate(j.spec.storage, b.storage, TlsRenameDue(At(j.version.value), latest))
  {
    if AtMost(START, j.version.value) && AtMost(j.version.value, latest) {
      UpgradedAfter(t, fails, latest, j, k);
    } else {
      LeftAlone(JaegerSteps(t, fails), j, latest);
      NothingCarried(j.spec, k);
    }
  }

  lemma NoStepsRun(fails: bool, latest: Version, r: Resource)
    requires r.status.Unset? || r.status == At(latest)
    ensures WithUpgrades(fails, latest, r) == Some(WithBlocks(r, BlocksOf(r)).(status := At(latest)))
    ensures !TlsRenameDue(r.status, latest)
  {
    SameBlocks(r);
  }

  lemma StepsRun(fails: bool, latest: Version, r: Resource) returns (j: Instance<Blocks>)
    requires WithUpgrades(fails, latest, r).Some? && r.status.At? && r.status.version != latest
    ensures j == Instance(Some(r.status.version), BlocksOf(r))
    ensures var u := Upgraded(JaegerSteps(RegisteredTables(), fails), REGISTRY, j, latest);
            u.ok && WithUpgrades(fails, latest, r).value == WithBlocks(r, u.instance.spec).(status := At(latest))
  {
    j := Instance(Some(r.status.version), BlocksOf(r));
  }

  /** applyUpgrades puts such blocks into the resource. */
  lemma UpgradesCarry(fails: bool, latest: Version, r: Resource, k: S.Kafka) returns (b: Blocks)
    requires WithUpgrades(fails, latest, r).Some? && KafkaNamed(k)
    ensures WithUpgrades(fails, latest, r).value == WithBlocks(r, b).(status := At(latest))
    ensures BlocksCarried(BlocksOf(r), b, k) && TlsFate(BlocksOf(r).storage, b.storage, TlsRenameDue(r.status, latest))
  {
    if r.status.At? && r.status.version != latest {
      b := StepsCarry(fails, latest, r, k);
    } else {
      b := BlocksOf(r);
      NothingCarried(b, k);
      NoStepsRun(fails, latest, r);
    }
  }

  lemma StepsCarry(fails: bool, latest: Version, r: Resource, k: S.Kafka) returns (b: Blocks)
    requires WithUpgrades(fails, latest, r).Some? && KafkaNamed(k) && r.status.At? && r.status.version != latest
    ensures WithUpgrades(fails, latest, r).value == WithBlocks(r, b).(status := At(latest))
    ensures BlocksCarried(BlocksOf(r), b, k) && TlsFate(BlocksOf(r).storage, b.storage, TlsRenameDue(r.status, latest))
  {
    var j := StepsRun(fails, latest, r);
    UpgradedCarries(RegisteredTables(), fails, latest, j, k);
    b := Upgraded(JaegerSteps(RegisteredTables(), fails), REGISTRY, j, latest).instance.spec;
  }

  lemma SameBlocks(r: Resource)
    ensures WithBlocks(r, BlocksOf(r)) == r
  {
  }

  lemma BlocksMigrate(r: Resource, b: Blocks, k: S.Kafka)
    requires BlocksCarried(BlocksOf(r), b, k)
    ensures var v := WithBlocks(r, b).instance; Migrates(r.instance, v) && KafkaCarried(r.instance, v, k)
  {
  }

  /** What the upgrade makes of an instance. */
  lemma UpgradeMigrates(fails: bool, latest: Version, r: Resource, k: S.Kafka)
    requires WithUpgrades(fails, latest, r).Some? && KafkaNamed(k)
    ensures var u := WithUpgrades(fails, latest, r).value;
            && u.status == At(latest) && Migrates(r.instance, u.instance) && KafkaCarried(r.instance, u.instance, k)
            && TlsFate(r.instance.storage.options, u.instance.storage.options, TlsRenameDue(r.status, latest))
  {
    var b := UpgradesCarry(fails, latest, r, k);
    BlocksMigrate(r, b, k);
  }

  lemma BrokersAfter(t: Tables, fails: bool, m: nat, n: nat, j: Instance<Blocks>)
    requires t == RegisteredTables() && m <= n <= |REGISTRY|
    requires RunSteps(JaegerSteps(t, fails), REGISTRY[m..n], j).ok
    ensures var b := RunSteps(JaegerSteps(t, fails), REGISTRY[m..n], j).instance.spec;
            SameAt(j.spec.collector, b.collector, S.PRODUCER_BROKERS)
                && SameAt(j.spec.ingester, b.ingester, S.CONSUMER_BROKERS)
  {
    ProducerName(S.PRODUCER_BROKERS);
    ConsumerName(S.CONSUMER_BROKERS);
    BrokersAreNoTls();
    CarriedKafka(t, fails, m, n, j, S.PRODUCER_BROKERS);
    CarriedKafka(t, fails, m, n, j, S.CONSUMER_BROKERS);
  }

  lemma BrokersAreNoTls()
    ensures S.PRODUCER_BROKERS != PRODUCER_TLS && S.CONSUMER_BROKERS != CONSUMER_TLS
  {
    assert |S.PRODUCER_BROKERS| == |S.CONSUMER_BROKERS| == 22 && |PRODUCER_TLS| == |CONSUMER_TLS| == 26;
  }

  // --- When the dependencies job appears ---------------------------------------------------

  /** The old TLS flag is all that says that Elasticsearch is reached by TLS. */
  predicate OldFlagOnly(o: Opts) {
    && EqualFold(Lookup(o, ES_TLS), "true") && !EqualFold(Lookup(o, ES_SKIP), "true")
    && (ES_CA in o ==> o[ES_CA] == One(""))
  }

  /** The job is not decided on, would be enabled by itself without TLS, and only the old flag stands for TLS. */
  predicate WaitsForRename(s: S.Storage) {
    && s.depsEnabled.None? && s.typ in {S.ELASTICSEARCH, S.CASSANDRA} && !S.ShouldInject(s) && OldFlagOnly(s.options)
  }

  lemma NotEnabledAfterIff(o: Opts, p: Opts, due: bool)
    requires StorageCarried(o, p) && TlsFate(o, p, due) && !S.TlsNotEnabled(o)
    ensures S.TlsNotEnabled(p) <==> due && OldFlagOnly(o)
  {
    FlagCarried(o, p, ES_SKIP);
    NothingIsNotTrue();
    EmptyOnly(Lookup(o, ES_CA));
    EmptyOnly(Lookup(p, ES_CA));
    if ES_CA in o && o[ES_CA].Many? { ListIsNoWord(o[ES_CA].ss); }
    if !due { FlagCarried(o, p, ES_TLS); }
  }

  lemma EmptyOnly(s: string)
    ensures EqualFold(s, "") <==> s == ""
  {
    assert |ToLower(s)| == |s| && |ToLower("")| == 0;
  }

  /** For an instance at rest, the upgrade makes the job appear exactly when it waited for the rename. */
  lemma AppearsIff(s: S.Storage, p: Opts, due: bool)
    requires S.NormalStorage(s) == s && StorageCarried(s.options, p) && TlsFate(s.options, p, due)
    ensures WithDependencies(s.(options := p)) != s.(options := p) <==> due && WaitsForRename(s)
  {
    if s.depsEnabled.None? && s.typ in {S.ELASTICSEARCH, S.CASSANDRA} && !S.ShouldInject(s) {
      assert !S.TlsNotEnabled(s.options);
      NotEnabledAfterIff(s.options, p, due);
    }
  }

  /** Normalising does not decide on a job that waits for the rename. */
  lemma WaitsAsGiven(env: S.Env, j: S.Instance)
    requires S.Chosen(env, j).Some?
    ensures WaitsForRename(S.Chosen(env, j).value.0.storage) <==> WaitsForRename(j.storage)
  {
    ChosenStorage(env, j);
    WaitsNormalised(j.storage);
    WaitsWithSchema(S.NormalStorage(j.storage));
  }

  lemma ChosenStorage(env: S.Env, j: S.Instance)
    requires S.Chosen(env, j).Some?
    ensures S.Chosen(env, j).value.0.storage == S.WithSchema(S.NormalStorage(j.storage))
  {
    var n := S.Normalised(env, j).value;
    BuiltStorage(n, S.KafkaFor(n.name, n.ns));
  }

  lemma BuiltStorage(n: S.Instance, k: S.Kafka)
    ensures S.Built(n, k).storage == S.WithSchema(n.storage)
  {
  }

  lemma WaitsWithSchema(s: S.Storage)
    ensures WaitsForRename(S.WithSchema(s)) <==> WaitsForRename(s)
  {
  }

  lemma WaitsNormalised(s: S.Storage)
    ensures WaitsForRename(S.NormalStorage(s)) <==> WaitsForRename(s)
  {
    assert S.ELASTICSEARCH in S.STORAGE_TYPES && S.CASSANDRA in S.STORAGE_TYPES;
    if OldFlagOnly(s.options) { FlagMeansTls(s.options); }
  }

  lemma FlagMeansTls(o: Opts)
    requires OldFlagOnly(o)
    ensures !S.TlsNotEnabled(o)
  {
  }

  // --- Quiescence --------------------------------------------------------------------------

  /** With the status up to date only For is left of a reconciliation. */
  lemma OnlyChooses(env: S.Env, fails: bool, latest: Version, r: Resource)
    requires r.status == At(latest)
    ensures var c := S.Chosen(env, r.instance);
            Reconciled(env, fails, latest, r) == if c.None? then None else Some(r.(instance := c.value.0))
  {
  }

  /** The second reconciliation decides on the dependencies job and does nothing else. */
  lemma SecondDecides(env: S.Env, fails: bool, again: bool, latest: Version, r: Resource)
    requires Reconciled(env, fails, latest, r).Some?
    ensures var done := Reconciled(env, fails, latest, r).value;
            Reconciled(env, again, latest, done) == Some(done.(instance := Again(done.instance)))
  {
    var c := S.Chosen(env, r.instance).value.0;
    var done := Reconciled(env, fails, latest, r).value;
    S.ChosenRests(env, r.instance);
    KafkaIsNamed(c.name, c.ns);
    UpgradeMigrates(fails, latest, r.(instance := c), S.KafkaFor(c.name, c.ns));
    ChosenAgain(env, c, done.instance);
    OnlyChooses(env, again, latest, done);
  }

  lemma DecidesIff(env: S.Env, fails: bool, latest: Version, r: Resource)
    requires Reconciled(env, fails, latest, r).Some?
    ensures var s := Reconciled(env, fails, latest, r).value.instance.storage;
            WithDependencies(s) != s <==> TlsRenameDue(r.status, latest) && WaitsForRename(r.instance.storage)
  {
    var c := S.Chosen(env, r.instance).value.0;
    var s := Reconciled(env, fails, latest, r).value.instance.storage;
    S.ChosenRests(env, r.instance);
    KafkaIsNamed(c.name, c.ns);
    UpgradeMigrates(fails, latest, r.(instance := c), S.KafkaFor(c.name, c.ns));
    WaitsAsGiven(env, r.instance);
    PreparedAtRest(env, c);
    assert s == c.storage.(options := s.options);
    AppearsIff(c.storage, s.options, TlsRenameDue(r.status, latest));
  }

  /**
   The reconciliation after a successful one succeeds, takes no upgrade step, and finds nothing
   to change if and only if the first one did not cross 1.17.0 with a storage whose dependencies
   job waited for it: one that is not decided on and kept off by the old TLS flag alone.
   */
  lemma QuiescentIff(env: S.Env, fails: bool, again: bool, latest: Version, r: Resource)
    requires Reconciled(env, fails, latest, r).Some?
    ensures var done := Reconciled(env, fails, latest, r).value;
            && Reconciled(env, again, latest, done).Some?
            && (Reconciled(env, again, latest, done) == Some(done) <==>
                  !(TlsRenameDue(r.status, latest) && WaitsForRename(r.instance.storage)))
  {
    SecondDecides(env, fails, again, latest, r);
    DecidesIff(env, fails, latest, r);
    OnlyStorage(Reconciled(env, fails, latest, r).value);
  }

  lemma OnlyStorage(r: Resource)
    ensures r.(instance := Again(r.instance)) == r <==> WithDependencies(r.instance.storage) == r.instance.storage
  {
    assert r.instance.(storage := r.instance.storage) == r.instance && r.(instance := r.instance) == r;
  }

  /** The reconciliation after that one finds nothing to change in any case. */
  lemma QuiescentAfterTwo(env: S.Env, fails: bool, again: bool, last: bool, latest: Version, r: Resource)
    requires Reconciled(env, fails, latest, r).Some?
    ensures var done := Reconciled(env, fails, latest, r).value;
            var twice := Reconciled(env, again, latest, done);
            twice.Some? && Reconciled(env, last, latest, twice.value) == twice
  {
    var done := Reconciled(env, fails, latest, r).value;
    DoneIsUpToDate(env, fails, latest, r);
    SecondDecides(env, fails, again, latest, r);
    SettlesOnceUpToDate(env, again, last, latest, done);
  }

  lemma DoneIsUpToDate(env: S.Env, fails: bool, latest: Version, r: Resource)
    requires Reconciled(env, fails, latest, r).Some?
    ensures Reconciled(env, fails, latest, r).value.status == At(latest)
  {
    var c := S.Chosen(env, r.instance).value.0;
    KafkaIsNamed(c.name, c.ns);
    UpgradeMigrates(fails, latest, r.(instance := c), S.KafkaFor(c.name, c.ns));
  }

  lemma SettlesOnceUpToDate(env: S.Env, again: bool, last: bool, latest: Version, r: Resource)
    requires r.status == At(latest) && Reconciled(env, again, latest, r).Some?
    ensures Reconciled(env, last, latest, Reconciled(env, again, latest, r).value) == Reconciled(env, again, latest, r)
  {
    OnlyChooses(env, again, latest, r);
    S.ChosenTwice(env, r.instance);
    OnlyChooses(env, last, latest, Reconciled(env, again, latest, r).value);
  }

  /** An external Elasticsearch with the old TLS flag. */
  ghost predicate OldTlsFlag(s: S.Storage) {
    && s.typ == S.ELASTICSEARCH && s.depsEnabled.None?
    && s.options == map[ES_URLS := One("http://es:9200"), ES_TLS := One("true")]
  }

  lemma OldTlsFlagWaits(s: S.Storage)
    requires OldTlsFlag(s)
    ensures WaitsForRename(s)
  {
    assert |ES_URLS| == 14 && |ES_TLS| == 6 && |ES_CA| == 9 && |ES_SKIP| == 23;
    assert Lookup(s.options, ES_SKIP) == "" && Lookup(s.options, ES_TLS) == "true";
    NothingIsNotTrue();
  }

  /** The input at which the second reconciliation changes the resource: the job appears. */
  lemma OldTlsFlagUnsettles(env: S.Env, fails: bool, again: bool, r: Resource)
    requires r.status == At(V115) && OldTlsFlag(r.instance.storage) && Reconciled(env, fails, V117, r).Some?
    ensures var done := Reconciled(env, fails, V117, r).value;
            && done.instance.storage.depsEnabled.None?
            && Reconciled(env, again, V117, done).Some?
            && Reconciled(env, again, V117, done).value.instance.storage.depsEnabled == Some(true)
  {
    OldTlsFlagWaits(r.instance.storage);
    SecondDecides(env, fails, again, V117, r);
    DecidesIff(env, fails, V117, r);
    DecidingEnables(Reconciled(env, fails, V117, r).value.instance.storage);
  }

  lemma DecidingEnables(s: S.Storage)
    requires WithDependencies(s) != s
    ensures s.depsEnabled.None? && WithDependencies(s).depsEnabled == Some(true)
  {
  }
}
