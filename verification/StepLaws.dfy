/** What the registered steps do to the options, name by name (pkg/upgrade/v1_15_0.go to v1_31_0.go). */
module StepLaws {
  import opened Text
  import opened Options
  import opened Migrations
  import opened Upgrade
  import opened MigrationLaws
  import opened MigrationReruns

  type Pairs = seq<(string, string)>

  // --- One table ---------------------------------------------------------------------------

  /** Present in both with the same printed value, or absent from both. */
  ghost predicate Same(o: Opts, r: Opts, k: string) {
    (k in r <==> k in o) && (k in o ==> r[k] == One(Shown(o[k])))
  }

  /** The pair takes the option away, or brings it. */
  ghost predicate Touches(o: Opts, p: (string, string), k: string) {
    p.0 == k || (p.1 == k && k != "" && p.0 in o)
  }

  /** Old options are under the new names, or gone where there is none, and nothing else changed. */
  ghost predicate Renames(pairs: Pairs, o: Opts, r: Opts) {
    && (forall p :: p in pairs ==> p.0 !in r)
    && (forall p :: p in pairs && p.0 in o && p.1 != "" ==> p.1 in r && r[p.1] == One(Shown(o[p.0])))
    && (forall k :: (forall p :: p in pairs ==> !Touches(o, p, k)) ==> Same(o, r, k))
  }

  ghost predicate RenamesAll(pairs: Pairs, b: Blocks, r: Blocks) {
    && Renames(pairs, b.allInOne, r.allInOne) && Renames(pairs, b.collector, r.collector)
    && Renames(pairs, b.query, r.query) && Renames(pairs, b.agent, r.agent)
    && Renames(pairs, b.ingester, r.ingester) && Renames(pairs, b.storage, r.storage)
  }

  /** The same ingress options, access review and storage type. */
  ghost predicate SameRest(b: Blocks, r: Blocks) {
    r.ingress == b.ingress && r.sar == b.sar && r.storageType == b.storageType
  }

  /** No two rows take the same name or give the same name. */
  ghost predicate RowsApart(table: seq<Rename>) {
    forall i, j :: 0 <= i < |table| && 0 <= j < |table| && i != j ==>
      table[i].from != table[j].from && (table[j].to != "" ==> table[i].to != table[j].to)
  }

  ghost predicate Lists(table: seq<Rename>, pairs: Pairs) {
    |table| == |pairs| && forall i :: 0 <= i < |table| ==> table[i] == Rename(pairs[i].0, pairs[i].1)
  }

  lemma {:induction false} RenamedStays(o: Opts, table: seq<Rename>, k: string)
    requires Acyclic(table) && !IsFrom(table, k)
    requires forall d :: d in table && d.to == k && k != "" ==> d.from !in o
    ensures (k in Renamed(o, table) <==> k in o) && (k in o ==> Renamed(o, table)[k] == o[k])
    decreases |table|
  {
    if table != [] {
      assert table[0] in table;
      assert forall d :: d in table[1..] ==> d in table;
      RenamedStays(RenameOne(o, table[0]), table[1..], k);
    }
  }

  /** The table renames exactly these pairs, in any order. */
  ghost predicate Tabled(table: seq<Rename>, pairs: Pairs) {
    Acyclic(table) && RowsApart(table) && Lists(table, pairs)
  }

  lemma MigratedRenames(o: Opts, table: seq<Rename>, pairs: Pairs)
    requires Tabled(table, pairs)
    ensures Renames(pairs, o, Migrated(o, table))
  {
    var r := Migrated(o, table);
    RenameTableLaws(o, table);
    forall p | p in pairs
      ensures p.0 !in r && (p.0 in o && p.1 != "" ==> p.1 in r && r[p.1] == One(Shown(o[p.0])))
    {
      var i :| 0 <= i < |pairs| && pairs[i] == p;
      assert table[i] in table;
      if p.0 in o && p.1 != "" { RenamedValue(o, table, i); }
    }
    forall k | forall p :: p in pairs ==> !Touches(o, p, k) ensures Same(o, r, k) {
      forall d | d in table ensures d.from != k && (d.to == k && k != "" ==> d.from !in o) {
        var i :| 0 <= i < |table| && table[i] == d;
        assert !Touches(o, pairs[i], k);
      }
      RenamedStays(o, table, k);
    }
  }

  lemma MigratedAllRenames(b: Blocks, table: seq<Rename>, pairs: Pairs)
    requires Tabled(table, pairs)
    ensures RenamesAll(pairs, b, MigratedAll(b, table))
  {
    MigratedRenames(b.allInOne, table, pairs);
    MigratedRenames(b.collector, table, pairs);
    MigratedRenames(b.query, table, pairs);
    MigratedRenames(b.agent, table, pairs);
    MigratedRenames(b.ingester, table, pairs);
    MigratedRenames(b.storage, table, pairs);
  }

  /** The step that is registered for a version, on the blocks of an instance. */
  function Registered(deleteFails: bool, v: Version, b: Blocks): Option<Blocks> {
    Apply(RegisteredTables(), deleteFails, v, b)
  }

  lemma StepOfVersion(t: Tables, deleteFails: bool, b: Blocks)
    ensures Apply(t, deleteFails, Version(1, 15, 0), b) == Some(MigratedAll(b, t.v115))
    ensures Apply(t, deleteFails, Version(1, 17, 0), b) == Some(Step117(b, t.v117))
    ensures Apply(t, deleteFails, Version(1, 18, 0), b) == Some(Step118(b, t.v118Collector, t.v118Agent))
    ensures Apply(t, deleteFails, Version(1, 20, 0), b) == Some(MigratedAll(b, t.v120))
    ensures Apply(t, deleteFails, Version(1, 22, 0), b) == Step122(b, t.v122Collector, t.v122Agent, t.v122Query)
    ensures Apply(t, deleteFails, Version(1, 28, 0), b) == Some(Step128(b))
    ensures Apply(t, deleteFails, Version(1, 31, 0), b) ==
            if SelfProvisionedEs(b) && deleteFails then None else Some(b)
  {
  }

  // --- 1.15.0 ------------------------------------------------------------------------------

  const RENAMED_1_15_0: Pairs := [
    ("collector.grpc.tls.client.ca", "collector.grpc.tls.client-ca"),
    ("collector.host-port", "reporter.tchannel.host-port"),
    ("discovery.conn-check-timeout", "reporter.tchannel.discovery.conn-check-timeout"),
    ("discovery.min-peers", "reporter.tchannel.discovery.min-peers"),
    ("health-check-http-port", "admin-http-port"),
    ("cassandra-archive.enable-dependencies-v2", ""),
    ("cassandra.enable-dependencies-v2", "")]

  lemma Lists115()
    ensures Lists(T115, RENAMED_1_15_0)
  {
  }

  lemma RowsApart115()
    ensures RowsApart(T115)
  {
    DistinctFroms115();
    assert |T115[0].to| == 28 && |T115[1].to| == 27 && |T115[2].to| == 46 && |T115[3].to| == 37 && |T115[4].to| == 15;
  }

  lemma Tabled115()
    ensures Tabled(RegisteredTables().v115, RENAMED_1_15_0)
  {
    Separate115();
    Lists115();
    RowsApart115();
  }

  /** The two steps that rename and do nothing else. */
  lemma RenamingSteps(t: Tables, deleteFails: bool, b: Blocks, pairs: Pairs)
    ensures var r := Apply(t, deleteFails, Version(1, 15, 0), b);
            Tabled(t.v115, pairs) ==> r.Some? && RenamesAll(pairs, b, r.value) && SameRest(b, r.value)
    ensures var r := Apply(t, deleteFails, Version(1, 20, 0), b);
            Tabled(t.v120, pairs) ==> r.Some? && RenamesAll(pairs, b, r.value) && SameRest(b, r.value)
  {
    StepOfVersion(t, deleteFails, b);
    if Tabled(t.v115, pairs) { MigratedAllRenames(b, t.v115, pairs); }
    if Tabled(t.v120, pairs) { MigratedAllRenames(b, t.v120, pairs); }
  }

  lemma Step115Says(deleteFails: bool, b: Blocks)
    ensures var r := Registered(deleteFails, Version(1, 15, 0), b);
            r.Some? && RenamesAll(RENAMED_1_15_0, b, r.value) && SameRest(b, r.value)
  {
    Tabled115();
    RenamingSteps(RegisteredTables(), deleteFails, b, RENAMED_1_15_0);
  }

  // --- 1.17.0 ------------------------------------------------------------------------------

  const RENAMED_1_17_0: Pairs := [
    ("collector.grpc.tls", "collector.grpc.tls.enabled"), ("reporter.grpc.tls", "reporter.grpc.tls.enabled"),
    ("es.tls", "es.tls.enabled"), ("es-archive.tls", "es-archive.tls.enabled"),
    ("cassandra.tls", "cassandra.tls.enabled"), ("cassandra-archive.tls", "cassandra-archive.tls.enabled"),
    ("kafka.consumer.tls", "kafka.consumer.tls.enabled"), ("kafka.producer.tls", "kafka.producer.tls.enabled")]

  /** The row of the table at `i`. */
  lemma {:induction false} TlsRowAt(prefixes: seq<string>, i: nat)
    requires i < |prefixes|
    ensures |TlsTable(prefixes)| == |prefixes|
    ensures TlsTable(prefixes)[i] == Rename(prefixes[i] + ".tls", prefixes[i] + ".tls.enabled")
  {
    if i > 0 {
      TlsRowAt(prefixes[1..], i - 1);
    } else if |prefixes| > 1 {
      TlsRowAt(prefixes[1..], 0);
    } else {
      assert prefixes[1..] == [];
    }
  }

  /** The pair that a prefix stands for. */
  ghost predicate PairFor(prefix: string, p: (string, string)) {
    p.0 == prefix + ".tls" && p.1 == prefix + ".tls.enabled"
  }

  lemma ShortPairs()
    ensures PairFor(TLS_PREFIXES[2], RENAMED_1_17_0[2]) && PairFor(TLS_PREFIXES[3], RENAMED_1_17_0[3])
    ensures PairFor(TLS_PREFIXES[4], RENAMED_1_17_0[4])
  {
  }

  lemma GrpcPairs()
    ensures PairFor(TLS_PREFIXES[0], RENAMED_1_17_0[0]) && PairFor(TLS_PREFIXES[1], RENAMED_1_17_0[1])
  {
  }

  lemma LongPairs()
    ensures PairFor(TLS_PREFIXES[5], RENAMED_1_17_0[5])
    ensures PairFor(TLS_PREFIXES[6], RENAMED_1_17_0[6]) && PairFor(TLS_PREFIXES[7], RENAMED_1_17_0[7])
  {
  }

  lemma PairsList(prefixes: seq<string>, pairs: Pairs)
    requires |prefixes| == |pairs| > 0 && forall i :: 0 <= i < |pairs| ==> PairFor(prefixes[i], pairs[i])
    ensures Lists(TlsTable(prefixes), pairs)
  {
    TlsRowAt(prefixes, 0);
    forall i | 0 <= i < |pairs| ensures TlsTable(prefixes)[i] == Rename(pairs[i].0, pairs[i].1) {
      TlsRowAt(prefixes, i);
      assert PairFor(prefixes[i], pairs[i]);
    }
  }

  lemma Lists117()
    ensures Lists(TlsTable(TLS_PREFIXES), RENAMED_1_17_0)
  {
    ShortPairs();
    GrpcPairs();
    LongPairs();
    assert |TLS_PREFIXES| == |RENAMED_1_17_0| == 8;
    PairsList(TLS_PREFIXES, RENAMED_1_17_0);
  }

  lemma PrefixesDiffer()
    ensures forall i, j :: 0 <= i < j < 8 ==> TLS_PREFIXES[i] != TLS_PREFIXES[j]
  {
    assert |TLS_PREFIXES[0]| == 14 && |TLS_PREFIXES[1]| == 13 && |TLS_PREFIXES[2]| == 2 && |TLS_PREFIXES[3]| == 10;
    assert |TLS_PREFIXES[4]| == 9 && |TLS_PREFIXES[5]| == 17 && |TLS_PREFIXES[6]| == 14 && |TLS_PREFIXES[7]| == 14;
    assert TLS_PREFIXES[0][0] == 'c' && TLS_PREFIXES[6][6] == 'c' && TLS_PREFIXES[7][6] == 'p';
    assert TLS_PREFIXES[6][0] == TLS_PREFIXES[7][0] == 'k';
  }

  lemma Apart117()
    ensures RowsApart(TlsTable(TLS_PREFIXES))
  {
    var table := TlsTable(TLS_PREFIXES);
    PrefixesDiffer();
    TlsRowAt(TLS_PREFIXES, 0);
    forall i, j | 0 <= i < |table| && 0 <= j < |table| && i != j
      ensures table[i].from != table[j].from && table[i].to != table[j].to
    {
      TlsRowAt(TLS_PREFIXES, i);
      TlsRowAt(TLS_PREFIXES, j);
      SuffixedDiffer(TLS_PREFIXES[i], TLS_PREFIXES[j], ".tls");
      SuffixedDiffer(TLS_PREFIXES[i], TLS_PREFIXES[j], ".tls.enabled");
    }
  }

  lemma SuffixedDiffer(a: string, b: string, suffix: string)
    requires a != b
    ensures a + suffix != b + suffix
  {
    assert (a + suffix)[..|a|] == a && (b + suffix)[..|b|] == b;
  }

  /** Where a Kafka client authenticates by TLS, TLS is enabled for it. */
  ghost predicate EnablesTls(o: Opts, r: Opts) {
    var consumer := Has(o, "kafka.consumer.authentication", "tls");
    var producer := Has(o, "kafka.producer.authentication", "tls");
    && (consumer ==> Has(r, "kafka.consumer.tls.enabled", "true"))
    && (producer ==> Has(r, "kafka.producer.tls.enabled", "true"))
    && (!consumer && !producer ==> r == o)
    && (forall k :: !(consumer && k == "kafka.consumer.tls.enabled") && !(producer && k == "kafka.producer.tls.enabled")
          ==> Same(o, r, k))
  }

  ghost predicate RenamesAndEnables(pairs: Pairs, o: Opts, r: Opts) {
    exists m :: Renames(pairs, o, m) && EnablesTls(m, r)
  }

  lemma KafkaTlsEnables(o: Opts)
    requires Single(o)
    ensures EnablesTls(o, KafkaTls(o))
  {
    ReparseIdentityIff(o);
    assert CONSUMER_TLS[6] == 'c' && PRODUCER_TLS[6] == 'p';
    assert |"tls"| == 3;
  }

  lemma MigratedEnables(o: Opts, table: seq<Rename>, pairs: Pairs)
    requires Tabled(table, pairs)
    ensures RenamesAndEnables(pairs, o, KafkaTls(Migrated(o, table)))
  {
    MigratedRenames(o, table, pairs);
    ReparseIdentityIff(Renamed(o, table));
    KafkaTlsEnables(Migrated(o, table));
  }

  /** The storage block counts for collector and ingester. */
  ghost predicate RenamesAndEnablesAll(pairs: Pairs, b: Blocks, r: Blocks) {
    && Renames(pairs, b.allInOne, r.allInOne) && Renames(pairs, b.query, r.query) && Renames(pairs, b.agent, r.agent)
    && RenamesAndEnables(pairs, b.collector, r.collector) && RenamesAndEnables(pairs, b.ingester, r.ingester)
    && RenamesAndEnables(pairs, b.storage, r.storage)
  }

  lemma EnablingStep(t: Tables, deleteFails: bool, b: Blocks, pairs: Pairs)
    requires Tabled(t.v117, pairs)
    ensures var r := Apply(t, deleteFails, Version(1, 17, 0), b);
            r.Some? && RenamesAndEnablesAll(pairs, b, r.value) && SameRest(b, r.value)
  {
    StepOfVersion(t, deleteFails, b);
    MigratedAllRenames(b, t.v117, pairs);
    MigratedEnables(b.collector, t.v117, pairs);
    MigratedEnables(b.ingester, t.v117, pairs);
    MigratedEnables(b.storage, t.v117, pairs);
  }

  lemma Tabled117()
    ensures Tabled(RegisteredTables().v117, RENAMED_1_17_0)
  {
    Lists117();
    Apart117();
    AcyclicTls();
  }

  lemma Step117Says(deleteFails: bool, b: Blocks)
    ensures var r := Registered(deleteFails, Version(1, 17, 0), b);
            r.Some? && RenamesAndEnablesAll(RENAMED_1_17_0, b, r.value) && SameRest(b, r.value)
  {
    Tabled117();
    EnablingStep(RegisteredTables(), deleteFails, b, RENAMED_1_17_0);
  }

  // --- 1.18.0 ------------------------------------------------------------------------------

  const RENAMED_1_18_0: Pairs := [
    ("collector.port", "collector.tchan-server.host-port"),
    ("collector.http-port", "collector.http-server.host-port"),
    ("collector.grpc-port", "collector.grpc-server.host-port"),
    ("collector.zipkin.http-port", "collector.zipkin.host-port"),
    ("admin-http-port", "admin.http.host-port")]

  const DROPPED_1_18_0: Pairs := [
    ("collector.host-port", ""), ("reporter.tchannel.discovery.conn-check-timeout", ""),
    ("reporter.tchannel.discovery.min-peers", ""), ("reporter.tchannel.host-port", ""),
    ("reporter.tchannel.report-timeout", "")]

  /** Every option that one of the pairs brings has a colon in front of it. */
  ghost predicate AddsColons(pairs: Pairs, o: Opts, r: Opts) {
    && (forall p, v :: p in pairs && Has(o, p.1, v) ==> Has(r, p.1, ":" + v))
    && (forall k :: (forall p :: p in pairs ==> p.1 != k) ==> Same(o, r, k))
  }

  ghost predicate RenamesWithColons(pairs: Pairs, o: Opts, r: Opts) {
    exists m :: Renames(pairs, o, m) && AddsColons(pairs, m, r)
  }

  lemma RowsApart118()
    ensures RowsApart(T118_COLLECTOR)
  {
    var c := T118_COLLECTOR;
    assert |c[0].from| == 14 && |c[1].from| == 19 && |c[2].from| == 19 && |c[3].from| == 26 && |c[4].from| == 15;
    assert c[1].from[10] == 'h' && c[2].from[10] == 'g';
    assert |c[0].to| == 32 && |c[1].to| == 31 && |c[2].to| == 31 && |c[3].to| == 26 && |c[4].to| == 20;
    assert c[1].to[10] == 'h' && c[2].to[10] == 'g';
  }

  lemma DroppedApart118()
    ensures RowsApart(T118_AGENT)
  {
    var a := T118_AGENT;
    assert |a[0].from| == 19 && |a[1].from| == 46 && |a[2].from| == 37 && |a[3].from| == 27 && |a[4].from| == 32;
  }

  lemma Lists118()
    ensures Lists(T118_COLLECTOR, RENAMED_1_18_0)
  {
  }

  lemma ListsDropped118()
    ensures Lists(T118_AGENT, DROPPED_1_18_0)
  {
  }

  lemma PortsGetColons(o: Opts, table: seq<Rename>, pairs: Pairs)
    requires Single(o) && Lists(table, pairs) && RowsApart(table) && Total(table)
    ensures AddsColons(pairs, o, Reparse(WithColons(o, table)))
  {
    WithColonsKeys(o, table);
    forall p, v | p in pairs && Has(o, p.1, v) ensures Has(WithColons(o, table), p.1, ":" + v) {
      var n :| 0 <= n < |pairs| && pairs[n] == p;
      assert table[n] in table;
      ColonAdded(o, table, n, p.1, v);
    }
    forall k | forall p :: p in pairs ==> p.1 != k ensures Same(o, Reparse(WithColons(o, table)), k) {
      if k in o {
        forall d | d in table ensures d.to != k {
          var n :| 0 <= n < |table| && table[n] == d;
          assert pairs[n].1 == d.to;
        }
        ColonsElsewhere(o, table, k);
      }
    }
  }

  lemma Tabled118()
    ensures Tabled(RegisteredTables().v118Collector, RENAMED_1_18_0) && Total(RegisteredTables().v118Collector)
  {
    RowsApart118();
    Lists118();
    Acyclic118();
    Total118();
  }

  lemma TabledDropped118()
    ensures Tabled(RegisteredTables().v118Agent, DROPPED_1_18_0)
  {
    DroppedApart118();
    ListsDropped118();
    AcyclicAgent118();
  }

  /** Ports get colons in the collector, and flags are dropped from the agent. */
  ghost predicate RewritesPorts(renamed: Pairs, dropped: Pairs, b: Blocks, r: Blocks) {
    && r == b.(collector := r.collector, agent := r.agent)
    && RenamesWithColons(renamed, b.collector, r.collector) && Renames(dropped, b.agent, r.agent)
  }

  lemma PortsStep(t: Tables, deleteFails: bool, b: Blocks, renamed: Pairs, dropped: Pairs)
    requires Tabled(t.v118Collector, renamed) && Total(t.v118Collector) && Tabled(t.v118Agent, dropped)
    ensures var r := Apply(t, deleteFails, Version(1, 18, 0), b);
            r.Some? && RewritesPorts(renamed, dropped, b, r.value)
  {
    StepOfVersion(t, deleteFails, b);
    MigratedRenames(b.collector, t.v118Collector, renamed);
    ReparseIdentityIff(Renamed(b.collector, t.v118Collector));
    PortsGetColons(Migrated(b.collector, t.v118Collector), t.v118Collector, renamed);
    MigratedRenames(b.agent, t.v118Agent, dropped);
    DroppedTwice(b.agent, t.v118Agent);
  }

  lemma Step118Says(deleteFails: bool, b: Blocks)
    ensures var r := Registered(deleteFails, Version(1, 18, 0), b);
            r.Some? && RewritesPorts(RENAMED_1_18_0, DROPPED_1_18_0, b, r.value)
  {
    Tabled118();
    TabledDropped118();
    PortsStep(RegisteredTables(), deleteFails, b, RENAMED_1_18_0, DROPPED_1_18_0);
  }

  // --- 1.20.0 and 1.22.0 -------------------------------------------------------------------

  const RENAMED_1_20_0: Pairs := [
    ("es.max-num-spans", "es.max-doc-count"), ("es-archive.max-num-spans", "es-archive.max-doc-count")]

  lemma Lists120()
    ensures Lists(T120, RENAMED_1_20_0)
  {
  }

  lemma RowsApart120()
    ensures RowsApart(T120)
  {
    assert |T120[0].from| == 16 && |T120[1].from| == 24 && |T120[0].to| == 16 && |T120[1].to| == 24;
  }

  lemma Tabled120()
    ensures Tabled(RegisteredTables().v120, RENAMED_1_20_0)
  {
    Acyclic120();
    RowsApart120();
    Lists120();
  }

  lemma Step120Says(deleteFails: bool, b: Blocks)
    ensures var r := Registered(deleteFails, Version(1, 20, 0), b);
            r.Some? && RenamesAll(RENAMED_1_20_0, b, r.value) && SameRest(b, r.value)
  {
    Tabled120();
    RenamingSteps(RegisteredTables(), deleteFails, b, RENAMED_1_20_0);
  }

  /** The address of the old flags is in every new flag that is not set, and the old flags are gone. */
  ghost predicate MovesAddress(o: Opts, r: Opts) {
    var grpc, http := "query.grpc-server.host-port", "query.http-server.host-port";
    && "query.port" !in r && "query.host-port" !in r
    && (forall k, v :: (k == grpc || k == http) && k !in o && Has(o, "query.port", v) ==> Has(r, k, ":" + v))
    && (forall k, v :: (k == grpc || k == http) && k !in o && v != "" && "query.port" !in o ==>
          Has(o, "query.host-port", v) ==> Has(r, k, v))
    && (forall k :: k != "query.port" && k != "query.host-port"
          && !((k == grpc || k == http) && k !in o
               && ("query.port" in o || ("query.host-port" in o && !Has(o, "query.host-port", ""))))
          ==> Same(o, r, k))
  }

  /** Host verification that does not read as true becomes the flag that skips it. */
  ghost predicate MovesVerification(o: Opts, r: Opts) {
    var old', new' := "cassandra.tls.verify-host", "cassandra.tls.skip-host-verify";
    var on := exists v :: v in TRUES && Has(o, old', v);
    && old' !in r
    && (old' in o && !on ==> Has(r, new', "true"))
    && (forall k :: k != old' && !(k == new' && old' in o && !on) ==> Same(o, r, k))
  }

  lemma AddressMoves(o: Opts)
    requires Single(o)
    ensures MovesAddress(o, QueryHostPort(o))
  {
    QueryNamesDiffer();
  }

  lemma VerificationMovesAsSaid(o: Opts)
    requires CassandraVerify(o).Some?
    ensures MovesVerification(o, CassandraVerify(o).value)
  {
    assert LastChar(VERIFY_HOST) == 't' && LastChar(SKIP_VERIFY) == 'y';
    if VERIFY_HOST in o && FlagBool(o[VERIFY_HOST].s) { assert Has(o, VERIFY_HOST, o[VERIFY_HOST].s); }
  }

  ghost predicate RenamesTags(pairs: Pairs, o: Opts, r: Opts) {
    exists m :: Renames(pairs, o, m) && MovesVerification(m, r)
  }

  ghost predicate DropsSampling(pairs: Pairs, o: Opts, r: Opts) {
    exists m :: Renames(pairs, o, m) && MovesAddress(m, r)
  }

  ghost predicate ListAt(o: Opts, k: string) { k in o && o[k].Many? }

  const TAGS_COLLECTOR: Pairs := [("jaeger.tags", "collector.tags")]
  const TAGS_AGENT: Pairs := [("jaeger.tags", "agent.tags")]
  const DROPPED_1_22_0: Pairs := [("downsampling.hashsalt", ""), ("downsampling.ratio", "")]

  lemma Lists122()
    ensures Lists(T122_COLLECTOR, TAGS_COLLECTOR) && Lists(T122_AGENT, TAGS_AGENT)
    ensures Lists(T122_QUERY, DROPPED_1_22_0)
  {
  }

  lemma Rows122()
    ensures RowsApart(T122_COLLECTOR) && RowsApart(T122_AGENT) && RowsApart(T122_QUERY)
  {
    assert |T122_QUERY[0].from| == 21 && |T122_QUERY[1].from| == 18;
  }

  lemma Tabled122()
    ensures Tabled(RegisteredTables().v122Collector, TAGS_COLLECTOR) && Tabled(RegisteredTables().v122Agent, TAGS_AGENT)
    ensures Tabled(RegisteredTables().v122Query, DROPPED_1_22_0)
  {
    Acyclic122();
    Rows122();
    Lists122();
  }

  lemma MigratedVerifies(o: Opts, table: seq<Rename>, pairs: Pairs)
    requires Tabled(table, pairs)
    ensures var m := Migrated(o, table);
            CassandraVerify(m).Some? && RenamesTags(pairs, o, CassandraVerify(m).value)
  {
    MigratedRenames(o, table, pairs);
    VerificationFits(Migrated(o, table));
  }

  lemma MigratedAddress(o: Opts, table: seq<Rename>, pairs: Pairs)
    requires Tabled(table, pairs)
    ensures DropsSampling(pairs, o, QueryHostPort(Migrated(o, table)))
  {
    MigratedRenames(o, table, pairs);
    ReparseIdentityIff(Renamed(o, table));
    AddressMoves(Migrated(o, table));
  }

  lemma VerificationFits(o: Opts)
    ensures CassandraVerify(o).None? <==> ListAt(o, "cassandra.tls.verify-host")
    ensures CassandraVerify(o).Some? ==> MovesVerification(o, CassandraVerify(o).value)
  {
    if CassandraVerify(o).Some? { VerificationMovesAsSaid(o); }
  }

  ghost predicate RenewsFlags(forCollector: Pairs, forAgent: Pairs, dropped: Pairs, b: Blocks, r: Blocks) {
    && Renames(forCollector, b.allInOne, r.allInOne) && RenamesTags(forCollector, b.collector, r.collector)
    && Renames(forAgent, b.agent, r.agent) && DropsSampling(dropped, b.query, r.query)
    && MovesVerification(b.storage, r.storage) && MovesVerification(b.ingress, r.ingress)
    && r.ingester == b.ingester && r.sar == b.sar && r.storageType == b.storageType
  }

  lemma RenewingStep(t: Tables, deleteFails: bool, b: Blocks, forCollector: Pairs, forAgent: Pairs, dropped: Pairs)
    requires Tabled(t.v122Collector, forCollector) && Tabled(t.v122Agent, forAgent) && Tabled(t.v122Query, dropped)
    ensures var r := Apply(t, deleteFails, Version(1, 22, 0), b);
            && (r.None? <==> CassandraVerify(b.storage).None? || CassandraVerify(b.ingress).None?)
            && (r.Some? ==> RenewsFlags(forCollector, forAgent, dropped, b, r.value))
  {
    StepOfVersion(t, deleteFails, b);
    MigratedRenames(b.allInOne, t.v122Collector, forCollector);
    MigratedVerifies(b.collector, t.v122Collector, forCollector);
    MigratedRenames(b.agent, t.v122Agent, forAgent);
    MigratedAddress(b.query, t.v122Query, dropped);
    VerificationFits(b.storage);
    VerificationFits(b.ingress);
  }

  lemma Step122Says(deleteFails: bool, b: Blocks)
    ensures var r := Registered(deleteFails, Version(1, 22, 0), b);
            && (r.None? <==>
                  ListAt(b.storage, "cassandra.tls.verify-host") || ListAt(b.ingress, "cassandra.tls.verify-host"))
            && (r.Some? ==> RenewsFlags(TAGS_COLLECTOR, TAGS_AGENT, DROPPED_1_22_0, b, r.value))
  {
    Tabled122();
    RenewingStep(RegisteredTables(), deleteFails, b, TAGS_COLLECTOR, TAGS_AGENT, DROPPED_1_22_0);
    VerificationFits(b.storage);
    VerificationFits(b.ingress);
  }

  // --- 1.28.0 and 1.31.0 -------------------------------------------------------------------

  lemma LastSteps(t: Tables, deleteFails: bool, b: Blocks)
    ensures Apply(t, deleteFails, Version(1, 28, 0), b) == Some(b.(sar := if b.sar.None? then Some(" ") else b.sar))
    ensures Apply(t, deleteFails, Version(1, 31, 0), b) ==
            if b.storageType == "elasticsearch" && "es.server-urls" !in b.storage && deleteFails then None else Some(b)
  {
    StepOfVersion(t, deleteFails, b);
  }

  lemma RegistryIs()
    ensures Elements(REGISTRY) == {Version(1, 15, 0), Version(1, 17, 0), Version(1, 18, 0), Version(1, 20, 0),
                                   Version(1, 22, 0), Version(1, 28, 0), Version(1, 31, 0)}
  {
  }

  /** The access review is kept from being defaulted; a self-provisioned Elasticsearch has to go. */
  lemma LastStepsSay(deleteFails: bool, b: Blocks)
    ensures Registered(deleteFails, Version(1, 28, 0), b) == Some(b.(sar := if b.sar.None? then Some(" ") else b.sar))
    ensures Registered(deleteFails, Version(1, 31, 0), b) ==
            if b.storageType == "elasticsearch" && "es.server-urls" !in b.storage && deleteFails then None else Some(b)
    ensures Elements(REGISTRY) == {Version(1, 15, 0), Version(1, 17, 0), Version(1, 18, 0), Version(1, 20, 0),
                                   Version(1, 22, 0), Version(1, 28, 0), Version(1, 31, 0)}
  {
    LastSteps(RegisteredTables(), deleteFails, b);
    RegistryIs();
  }
}
