/**
 The registered upgrade steps (pkg/upgrade/v1_15_0.go to v1_31_0.go) on the option blocks of an instance, and
 the rename tables they share (pkg/upgrade/migrate_deprecated.go).
 */
module Migrations {
  import opened Text
  import opened Options
  import opened Upgrade

  datatype Rename = Rename(from: string, to: string)

  // --- Rename tables -----------------------------------------------------------------------

  /** One table row: the value moves to the new name, or goes when there is none. */
  function RenameOne(o: Opts, d: Rename): Opts {
    if d.from !in o then o
    else (if |d.to| > 0 then o[d.to := o[d.from]] else o) - {d.from}
  }

  function Renamed(o: Opts, table: seq<Rename>): Opts
    decreases |table|
  {
    if table == [] then o else Renamed(RenameOne(o, table[0]), table[1..])
  }

  function Migrated(o: Opts, table: seq<Rename>): Opts { Reparse(Renamed(o, table)) }

  /** migrateDeprecatedOptions */
  method MigrateDeprecatedOptions(o: Opts, table: seq<Rename>) returns (r: Opts)
    ensures r == Migrated(o, table)
  {
    var in' := o;
    for i := 0 to |table|
      invariant Renamed(in', table[i..]) == Renamed(o, table)
    {
      var d := table[i];
      assert table[i..][0] == d && table[i..][1..] == table[i + 1..];
      if d.from in in' {
        if |d.to| > 0 { in' := in'[d.to := in'[d.from]]; }
        in' := in' - {d.from};
      }
    }
    r := RoundTrip(in');
  }

  ghost predicate IsFrom(table: seq<Rename>, k: string) { exists d :: d in table && d.from == k }
  ghost predicate IsTo(table: seq<Rename>, k: string) { exists d :: d in table && d.to == k }

  /** No new name is itself renamed by the table. */
  ghost predicate Acyclic(table: seq<Rename>) { forall d, e :: d in table && e in table ==> d.to != e.from }

  lemma {:induction false} RenamedKeys(o: Opts, table: seq<Rename>, k: string)
    requires !IsTo(table, k)
    ensures IsFrom(table, k) ==> k !in Renamed(o, table)
    ensures !IsFrom(table, k) ==> (k in Renamed(o, table) <==> k in o) && (k in o ==> Renamed(o, table)[k] == o[k])
    decreases |table|
  {
    if table != [] {
      assert table == [table[0]] + table[1..];
      assert !IsTo(table[1..], k) by { assert forall d :: d in table[1..] ==> d in table; }
      assert table[0] in table;
      var o1 := RenameOne(o, table[0]);
      RenamedKeys(o1, table[1..], k);
      assert IsFrom(table, k) <==> table[0].from == k || IsFrom(table[1..], k);
    }
  }

  lemma {:induction false} NothingToRename(o: Opts, table: seq<Rename>)
    requires forall d :: d in table ==> d.from !in o
    ensures Renamed(o, table) == o
    decreases |table|
  {
    if table != [] {
      assert table[0] in table;
      forall d | d in table[1..] ensures d.from !in o { assert d in table; }
      NothingToRename(o, table[1..]);
    }
  }

  /**
   For every table in which no new name is also an old one: no old name is left, options the
   table does not mention keep their (single-string) value, and a second migration is void.
   */
  lemma RenameTableLaws(o: Opts, table: seq<Rename>)
    requires Acyclic(table)
    ensures forall d :: d in table ==> d.from !in Migrated(o, table)
    ensures forall k :: !IsFrom(table, k) && !IsTo(table, k) ==>
              (k in Migrated(o, table) <==> k in o) && (k in o ==> Migrated(o, table)[k] == One(Shown(o[k])))
    ensures Migrated(Migrated(o, table), table) == Migrated(o, table)
  {
    forall d | d in table ensures d.from !in Migrated(o, table) {
      assert !IsTo(table, d.from);
      RenamedKeys(o, table, d.from);
    }
    forall k | !IsFrom(table, k) && !IsTo(table, k)
      ensures (k in Migrated(o, table) <==> k in o) && (k in o ==> Migrated(o, table)[k] == One(Shown(o[k])))
    {
      RenamedKeys(o, table, k);
    }
    NothingToRename(Migrated(o, table), table);
    ReparseIdentityIff(Renamed(o, table));
  }

  /** A renamed option keeps its value under its new name. */
  lemma {:induction false} RenamedValue(o: Opts, table: seq<Rename>, n: nat)
    requires Acyclic(table) && n < |table|
    requires forall i :: 0 <= i < |table| && i != n ==> table[i].from != table[n].from && table[i].to != table[n].to
    requires table[n].from in o && table[n].to != ""
    ensures table[n].to in Renamed(o, table) && Renamed(o, table)[table[n].to] == o[table[n].from]
    decreases |table|
  {
    assert table[0] in table && table[n] in table;
    assert forall d :: d in table[1..] ==> d in table;
    var o1 := RenameOne(o, table[0]);
    if n == 0 {
      forall d | d in table[1..] ensures d.from != table[0].to && d.to != table[0].to {
        var i :| 0 <= i < |table[1..]| && table[1..][i] == d;
        assert table[i + 1] == d;
      }
      AssignedStays(o1, table[1..], table[0].to);
    } else {
      assert table[1..][n - 1] == table[n];
      RenamedValue(o1, table[1..], n - 1);
    }
  }

  lemma {:induction false} AssignedStays(o: Opts, table: seq<Rename>, k: string)
    requires k in o && forall d :: d in table ==> d.from != k && d.to != k
    ensures k in Renamed(o, table) && Renamed(o, table)[k] == o[k]
    decreases |table|
  {
    if table != [] {
      assert table[0] in table;
      assert forall d :: d in table[1..] ==> d in table;
      AssignedStays(RenameOne(o, table[0]), table[1..], k);
    }
  }

  // --- The instance ------------------------------------------------------------------------

  /** What the steps see of an instance: six option blocks, the ingress block, SAR and storage. */
  datatype Blocks = Blocks(
    allInOne: Opts, collector: Opts, query: Opts, agent: Opts, ingester: Opts, storage: Opts,
    ingress: Opts, sar: Option<string>, storageType: string)

  function MigratedAll(b: Blocks, table: seq<Rename>): Blocks {
    b.(allInOne := Migrated(b.allInOne, table), collector := Migrated(b.collector, table),
       query := Migrated(b.query, table), agent := Migrated(b.agent, table),
       ingester := Migrated(b.ingester, table), storage := Migrated(b.storage, table))
  }

  // --- 1.15.0, 1.17.0, 1.20.0 --------------------------------------------------------------

  const T115: seq<Rename> := [
    Rename("collector.grpc.tls.client.ca", "collector.grpc.tls.client-ca"),
    Rename("collector.host-port", "reporter.tchannel.host-port"),
    Rename("discovery.conn-check-timeout", "reporter.tchannel.discovery.conn-check-timeout"),
    Rename("discovery.min-peers", "reporter.tchannel.discovery.min-peers"),
    Rename("health-check-http-port", "admin-http-port"),
    Rename("cassandra-archive.enable-dependencies-v2", ""),
    Rename("cassandra.enable-dependencies-v2", "")]

  const TLS_PREFIXES: seq<string> := [
    "collector.grpc", "reporter.grpc", "es", "es-archive", "cassandra", "cassandra-archive",
    "kafka.consumer", "kafka.producer"]

  function TlsTable(prefixes: seq<string>): seq<Rename> {
    if prefixes == [] then []
    else [Rename(prefixes[0] + ".tls", prefixes[0] + ".tls.enabled")] + TlsTable(prefixes[1..])
  }

  const T120: seq<Rename> := [
    Rename("es.max-num-spans", "es.max-doc-count"),
    Rename("es-archive.max-num-spans", "es-archive.max-doc-count")]

  function WithKafkaTls(o: Opts): Opts {
    var o1 := if Lookup(o, "kafka.consumer.authentication") == "tls" then o["kafka.consumer.tls.enabled" := One("true")]
        else o;
    if Lookup(o, "kafka.producer.authentication") == "tls" then o1["kafka.producer.tls.enabled" := One("true")] else o1
  }

  predicate KafkaUsesTls(o: Opts) {
    Lookup(o, "kafka.consumer.authentication") == "tls" || Lookup(o, "kafka.producer.authentication") == "tls"
  }

  function KafkaTls(o: Opts): Opts { if KafkaUsesTls(o) then Reparse(WithKafkaTls(o)) else o }

  /** 1.17.0; the 1.15.0 and 1.20.0 steps are MigratedAll with their tables. */
  function Step117(b: Blocks, table: seq<Rename>): Blocks {
    var m := MigratedAll(b, table);
    m.(collector := KafkaTls(m.collector), ingester := KafkaTls(m.ingester), storage := KafkaTls(m.storage))
  }

  method MigrateAllDeprecatedOptions(b: Blocks, table: seq<Rename>) returns (r: Blocks)
    ensures r == MigratedAll(b, table)
  {
    var allInOne := MigrateDeprecatedOptions(b.allInOne, table);
    var collector := MigrateDeprecatedOptions(b.collector, table);
    var query := MigrateDeprecatedOptions(b.query, table);
    var agent := MigrateDeprecatedOptions(b.agent, table);
    var ingester := MigrateDeprecatedOptions(b.ingester, table);
    var storage := MigrateDeprecatedOptions(b.storage, table);
    r := b.(allInOne := allInOne, collector := collector, query := query, agent := agent,
            ingester := ingester, storage := storage);
  }

  method BuildTlsTable(prefixes: seq<string>) returns (d: seq<Rename>)
    ensures d == TlsTable(prefixes)
  {
    d := [];
    for i := 0 to |prefixes|
      invariant d + TlsTable(prefixes[i..]) == TlsTable(prefixes)
    {
      assert prefixes[i..][0] == prefixes[i] && prefixes[i..][1..] == prefixes[i + 1..];
      d := d + [Rename(prefixes[i] + ".tls", prefixes[i] + ".tls.enabled")];
    }
  }

  method Upgrade117(b: Blocks) returns (r: Blocks)
    ensures r == Step117(b, TlsTable(TLS_PREFIXES))
  {
    var d := BuildTlsTable(TLS_PREFIXES);
    r := MigrateAllDeprecatedOptions(b, d);
    var collector := MigrateKafkaTLS(r.collector);
    var ingester := MigrateKafkaTLS(r.ingester);
    var storage := MigrateKafkaTLS(r.storage);
    r := r.(collector := collector, ingester := ingester, storage := storage);
  }

  method MigrateKafkaTLS(o: Opts) returns (r: Opts)
    ensures r == KafkaTls(o)
  {
    var m, changed := o, false;
    if Lookup(o, "kafka.consumer.authentication") == "tls" {
      m := m["kafka.consumer.tls.enabled" := One("true")];
      changed := true;
    }
    if Lookup(o, "kafka.producer.authentication") == "tls" {
      m := m["kafka.producer.tls.enabled" := One("true")];
      changed := true;
    }
    if !changed { return o; }
    r := RoundTrip(m);
  }

  // --- 1.18.0 ------------------------------------------------------------------------------

  const T118_COLLECTOR: seq<Rename> := [
    Rename("collector.port", "collector.tchan-server.host-port"),
    Rename("collector.http-port", "collector.http-server.host-port"),
    Rename("collector.grpc-port", "collector.grpc-server.host-port"),
    Rename("collector.zipkin.http-port", "collector.zipkin.host-port"),
    Rename("admin-http-port", "admin.http.host-port")]

  const T118_AGENT: seq<Rename> := [
    Rename("collector.host-port", ""),
    Rename("reporter.tchannel.discovery.conn-check-timeout", ""),
    Rename("reporter.tchannel.discovery.min-peers", ""),
    Rename("reporter.tchannel.host-port", ""),
    Rename("reporter.tchannel.report-timeout", "")]

  /** Every new port flag gets a ':' in front of its value. */
  function WithColons(o: Opts, table: seq<Rename>): Opts
    decreases |table|
  {
    if table == [] then o
    else WithColons(if table[0].to in o then o[table[0].to := One(":" + Shown(o[table[0].to]))] else o, table[1..])
  }

  function CollectorPorts(o: Opts, table: seq<Rename>): Opts {
    Reparse(WithColons(Migrated(o, table), table))
  }

  function Step118(b: Blocks, ports: seq<Rename>, dropped: seq<Rename>): Blocks {
    b.(collector := CollectorPorts(b.collector, ports), agent := Reparse(Migrated(b.agent, dropped)))
  }

  method TransformCollectorPorts(o: Opts, table: seq<Rename>) returns (r: Opts)
    ensures r == Reparse(WithColons(o, table))
  {
    var in' := o;
    for i := 0 to |table|
      invariant WithColons(in', table[i..]) == WithColons(o, table)
    {
      var d := table[i];
      assert table[i..][0] == d && table[i..][1..] == table[i + 1..];
      if d.to in in' { in' := in'[d.to := One(":" + Shown(in'[d.to]))]; }
    }
    r := RoundTrip(in');
  }

  method Upgrade118(b: Blocks) returns (r: Blocks)
    ensures r == Step118(b, T118_COLLECTOR, T118_AGENT)
  {
    var opts := MigrateDeprecatedOptions(b.collector, T118_COLLECTOR);
    var collector := TransformCollectorPorts(opts, T118_COLLECTOR);
    var ops := MigrateDeprecatedOptions(b.agent, T118_AGENT);
    var agent := RoundTrip(ops);
    r := b.(collector := collector, agent := agent);
  }

  // --- 1.22.0 ------------------------------------------------------------------------------

  const T122_COLLECTOR: seq<Rename> := [Rename("jaeger.tags", "collector.tags")]
  const T122_AGENT: seq<Rename> := [Rename("jaeger.tags", "agent.tags")]
  const T122_QUERY: seq<Rename> := [Rename("downsampling.hashsalt", ""), Rename("downsampling.ratio", "")]

  const QUERY_PORT := "query.port"
  const QUERY_HOST_PORT := "query.host-port"
  const QUERY_GRPC := "query.grpc-server.host-port"
  const QUERY_HTTP := "query.http-server.host-port"
  const VERIFY_HOST := "cassandra.tls.verify-host"
  const SKIP_VERIFY := "cassandra.tls.skip-host-verify"

  function QueryAddress(o: Opts): string {
    if QUERY_PORT in o then ":" + Shown(o[QUERY_PORT])
    else if QUERY_HOST_PORT in o then Shown(o[QUERY_HOST_PORT])
    else ""
  }

  function QueryHostPort(o: Opts): Opts {
    var address := QueryAddress(o);
    var o1 := if address != "" && QUERY_GRPC !in o then o[QUERY_GRPC := One(address)] else o;
    var o2 := if address != "" && QUERY_HTTP !in o then o1[QUERY_HTTP := One(address)] else o1;
    Reparse(o2 - {QUERY_PORT, QUERY_HOST_PORT})
  }

  /** flagBoolValue: an unparsable string counts as false. */
  predicate FlagBool(s: string) { s in {"1", "t", "T", "TRUE", "true", "True"} }

  /** None where the flag holds a list, on which the type assertion panics. */
  function CassandraVerify(o: Opts): Option<Opts> {
    if VERIFY_HOST !in o then Some(Reparse(o))
    else if o[VERIFY_HOST].Many? then None
    else
      var o1 := o - {VERIFY_HOST};
      Some(Reparse(if FlagBool(o[VERIFY_HOST].s) then o1 else o1[SKIP_VERIFY := One("true")]))
  }

  function Step122(b: Blocks, forCollector: seq<Rename>, forAgent: seq<Rename>, forQuery: seq<Rename>): Option<Blocks> {
    var collector := CassandraVerify(Migrated(b.collector, forCollector));
    var storage, ingress := CassandraVerify(b.storage), CassandraVerify(b.ingress);
    if collector.None? || storage.None? || ingress.None? then None
    else Some(b.(allInOne := Migrated(b.allInOne, forCollector), collector := collector.value,
                 agent := Migrated(b.agent, forAgent), query := QueryHostPort(Migrated(b.query, forQuery)),
                 storage := storage.value, ingress := ingress.value))
  }

  /** The flag the address is taken from holds a list, on which the type assertion panics. */
  predicate AddressIsList(o: Opts) {
    if QUERY_PORT in o then o[QUERY_PORT].Many? else QUERY_HOST_PORT in o && o[QUERY_HOST_PORT].Many?
  }

  method MigrateQueryHostPortFlags(o: Opts) returns (r: Option<Opts>)
    ensures r == if AddressIsList(o) then None else Some(QueryHostPort(o))
  {
    var in' := o;
    var newValue := "";
    if QUERY_PORT in o {
      if o[QUERY_PORT].Many? { return None; }
      newValue := ":" + o[QUERY_PORT].s;
    } else if QUERY_HOST_PORT in o {
      if o[QUERY_HOST_PORT].Many? { return None; }
      newValue := o[QUERY_HOST_PORT].s;
    }
    if newValue != "" {
      if QUERY_GRPC !in o { in' := in'[QUERY_GRPC := One(newValue)]; }
      if QUERY_HTTP !in o { in' := in'[QUERY_HTTP := One(newValue)]; }
    }
    in' := in' - {QUERY_PORT};
    in' := in' - {QUERY_HOST_PORT};
    assert forall m: Opts :: m - {QUERY_PORT} - {QUERY_HOST_PORT} == m - {QUERY_PORT, QUERY_HOST_PORT};
    var parsed := RoundTrip(in');
    r := Some(parsed);
  }

  /** updateCassandraVerifyHostFlagv1_22_0; None where flagBoolValue is handed a list. */
  method UpdateCassandraVerifyHostFlag(o: Opts) returns (r: Option<Opts>)
    ensures r == CassandraVerify(o)
  {
    var in' := o;
    if VERIFY_HOST in in' {
      var old' := in'[VERIFY_HOST];
      in' := in' - {VERIFY_HOST};
      if old'.Many? { return None; }
      if !FlagBool(old'.s) { in' := in'[SKIP_VERIFY := One("true")]; }
    }
    var parsed := RoundTrip(in');
    r := Some(parsed);
  }

  method Upgrade122(b: Blocks) returns (r: Option<Blocks>)
    ensures r == Step122(b, T122_COLLECTOR, T122_AGENT, T122_QUERY)
  {
    var allInOne := MigrateDeprecatedOptions(b.allInOne, T122_COLLECTOR);
    var collector := MigrateDeprecatedOptions(b.collector, T122_COLLECTOR);
    var agent := MigrateDeprecatedOptions(b.agent, T122_AGENT);
    var query := MigrateDeprecatedOptions(b.query, T122_QUERY);
    var q := MigrateQueryHostPortFlags(query);
    if q.None? { return None; }
    var c := UpdateCassandraVerifyHostFlag(collector);
    if c.None? { return None; }
    var s := UpdateCassandraVerifyHostFlag(b.storage);
    if s.None? { return None; }
    var i := UpdateCassandraVerifyHostFlag(b.ingress);
    if i.None? { return None; }
    r := Some(b.(allInOne := allInOne, collector := c.value, agent := agent, query := q.value, storage := s.value,
        ingress := i.value));
  }

  // --- 1.28.0, 1.31.0 ----------------------------------------------------------------------

  function Step128(b: Blocks): Blocks { if b.sar.None? then b.(sar := Some(" ")) else b }

  predicate SelfProvisionedEs(b: Blocks) { b.storageType == "elasticsearch" && "es.server-urls" !in b.storage }

  // --- The registry (pkg/upgrade/versions.go) ----------------------------------------------

  /** The rename tables of all steps. */
  datatype Tables = Tables(
    v115: seq<Rename>, v117: seq<Rename>, v118Collector: seq<Rename>, v118Agent: seq<Rename>, v120: seq<Rename>,
    v122Collector: seq<Rename>, v122Agent: seq<Rename>, v122Query: seq<Rename>)

  function RegisteredTables(): Tables {
    Tables(T115, TlsTable(TLS_PREFIXES), T118_COLLECTOR, T118_AGENT, T120, T122_COLLECTOR, T122_AGENT, T122_QUERY)
  }

  const V115 := Version(1, 15, 0)
  const V117 := Version(1, 17, 0)
  const V118 := Version(1, 18, 0)
  const V120 := Version(1, 20, 0)
  const V122 := Version(1, 22, 0)
  const V128 := Version(1, 28, 0)
  const V131 := Version(1, 31, 0)

  const REGISTRY: seq<Version> := [V115, V117, V118, V120, V122, V128, V131]

  /** One step; None is an error (or, in 1.22.0, a panic). Deleting Elasticsearch may fail. */
  function Apply(t: Tables, deleteFails: bool, v: Version, b: Blocks): Option<Blocks> {
    if v == V115 then Some(MigratedAll(b, t.v115))
    else if v == V117 then Some(Step117(b, t.v117))
    else if v == V118 then Some(Step118(b, t.v118Collector, t.v118Agent))
    else if v == V120 then Some(MigratedAll(b, t.v120))
    else if v == V122 then Step122(b, t.v122Collector, t.v122Agent, t.v122Query)
    else if v == V128 then Some(Step128(b))
    else if v == V131 && SelfProvisionedEs(b) && deleteFails then None
    else Some(b)
  }

  function JaegerSteps(t: Tables, deleteFails: bool): Steps<Blocks> {
    (v: Version, j: Instance<Blocks>) =>
      var r := Apply(t, deleteFails, v, j.spec);
      if r.None? then Failed else Done(j.(spec := r.value))
  }
}
