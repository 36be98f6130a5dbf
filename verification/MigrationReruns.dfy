/**
 An upgrade that is repeated on its own result. ManagedInstances stores the upgraded instance
 and its status version by two patches (pkg/upgrade/upgrade.go); when only the first gets
 through, the next start upgrades the upgraded instance from the old version again.
 */
module MigrationReruns {
  import opened Text
  import opened Options
  import opened Migrations
  import opened Upgrade
  import opened MigrationLaws

  const CONSUMER_AUTH := "kafka.consumer.authentication"
  const PRODUCER_AUTH := "kafka.producer.authentication"
  const CONSUMER_TLS := "kafka.consumer.tls.enabled"
  const PRODUCER_TLS := "kafka.producer.tls.enabled"

  // --- Blocks a step leaves alone ----------------------------------------------------------

  /** Single values, and no old name of the table. */
  ghost predicate Settled(o: Opts, table: seq<Rename>) { Single(o) && forall d :: d in table ==> d.from !in o }

  lemma SettledIsFixed(o: Opts, table: seq<Rename>)
    requires Settled(o, table)
    ensures Migrated(o, table) == o
  {
    NothingToRename(o, table);
    ReparseIdentityIff(o);
  }

  lemma MigratedSettles(o: Opts, table: seq<Rename>)
    requires Acyclic(table)
    ensures Settled(Migrated(o, table), table)
  {
    RenameTableLaws(o, table);
    ReparseIdentityIff(Renamed(o, table));
  }

  /** TLS is on wherever the authentication is TLS. */
  ghost predicate KafkaSettled(o: Opts) {
    && (Lookup(o, CONSUMER_AUTH) == "tls" ==> Lookup(o, CONSUMER_TLS) == "true")
    && (Lookup(o, PRODUCER_AUTH) == "tls" ==> Lookup(o, PRODUCER_TLS) == "true")
  }

  lemma KafkaSettledIsFixed(o: Opts)
    requires Single(o) && KafkaSettled(o)
    ensures KafkaTls(o) == o
  {
    ReparseIdentityIff(o);
    assert WithKafkaTls(o) == o;
  }

  lemma KafkaTlsSettles(o: Opts)
    requires Single(o)
    ensures Single(KafkaTls(o)) && KafkaSettled(KafkaTls(o))
  {
    ReparseIdentityIff(WithKafkaTls(o));
    KafkaNamesDiffer();
    if KafkaUsesTls(o) {
      var w := WithKafkaTls(o);
      assert Single(w);
      ReparseIdentityIff(w);
    }
  }

  lemma KafkaNamesDiffer()
    ensures CONSUMER_AUTH !in {CONSUMER_TLS, PRODUCER_TLS} && PRODUCER_AUTH !in {CONSUMER_TLS, PRODUCER_TLS}
    ensures CONSUMER_TLS != PRODUCER_TLS
  {
    assert LastChar(CONSUMER_AUTH) == LastChar(PRODUCER_AUTH) == 'n'
        && LastChar(CONSUMER_TLS) == LastChar(PRODUCER_TLS) == 'd';
    assert CONSUMER_TLS[6] == 'c' && PRODUCER_TLS[6] == 'p';
  }

  /** Each step, by its place in the registry, leaves such an instance alone (1.18.0 up to its port values). */
  ghost predicate AllSettled(b: Blocks, table: seq<Rename>) {
    && Settled(b.allInOne, table) && Settled(b.collector, table) && Settled(b.query, table)
    && Settled(b.agent, table) && Settled(b.ingester, table) && Settled(b.storage, table)
  }

  ghost predicate Settled117(t: Tables, b: Blocks) {
    AllSettled(b, t.v117) && KafkaSettled(b.collector) && KafkaSettled(b.ingester) && KafkaSettled(b.storage)
  }

  ghost predicate Settled118(t: Tables, b: Blocks) {
    Settled(b.collector, t.v118Collector) && Settled(b.agent, t.v118Agent)
  }

  ghost predicate Settled122(t: Tables, b: Blocks) {
    && Settled(b.allInOne, t.v122Collector) && Settled(b.collector, t.v122Collector)
    && Settled(b.agent, t.v122Agent) && Settled(b.query, t.v122Query) && Single(b.storage) && Single(b.ingress)
    && VERIFY_HOST !in b.collector && VERIFY_HOST !in b.storage && VERIFY_HOST !in b.ingress
    && QUERY_PORT !in b.query && QUERY_HOST_PORT !in b.query
  }

  ghost predicate SettledAt(t: Tables, i: nat, b: Blocks) {
    && (i == 0 ==> AllSettled(b, t.v115)) && (i == 1 ==> Settled117(t, b)) && (i == 2 ==> Settled118(t, b))
    && (i == 3 ==> AllSettled(b, t.v120)) && (i == 4 ==> Settled122(t, b)) && (i == 5 ==> b.sar.Some?)
  }

  lemma AllSettledIsFixed(b: Blocks, table: seq<Rename>)
    requires AllSettled(b, table)
    ensures MigratedAll(b, table) == b
  {
    SettledIsFixed(b.allInOne, table);
    SettledIsFixed(b.collector, table);
    SettledIsFixed(b.query, table);
    SettledIsFixed(b.agent, table);
    SettledIsFixed(b.ingester, table);
    SettledIsFixed(b.storage, table);
  }

  lemma Settled117IsFixed(t: Tables, b: Blocks)
    requires Settled117(t, b)
    ensures Step117(b, t.v117) == b
  {
    AllSettledIsFixed(b, t.v117);
    KafkaSettledIsFixed(b.collector);
    KafkaSettledIsFixed(b.ingester);
    KafkaSettledIsFixed(b.storage);
  }

  lemma CassandraSettledIsFixed(o: Opts)
    requires Single(o) && VERIFY_HOST !in o
    ensures CassandraVerify(o) == Some(o)
  {
    ReparseIdentityIff(o);
  }

  lemma QuerySettledIsFixed(o: Opts)
    requires Single(o) && QUERY_PORT !in o && QUERY_HOST_PORT !in o
    ensures QueryHostPort(o) == o
  {
    assert o - {QUERY_PORT, QUERY_HOST_PORT} == o;
    ReparseIdentityIff(o);
  }

  lemma Settled122IsFixed(t: Tables, b: Blocks)
    requires Settled122(t, b)
    ensures Step122(b, t.v122Collector, t.v122Agent, t.v122Query) == Some(b)
  {
    SettledIsFixed(b.allInOne, t.v122Collector);
    SettledIsFixed(b.collector, t.v122Collector);
    SettledIsFixed(b.agent, t.v122Agent);
    SettledIsFixed(b.query, t.v122Query);
    QuerySettledIsFixed(b.query);
    CassandraSettledIsFixed(b.collector);
    CassandraSettledIsFixed(b.storage);
    CassandraSettledIsFixed(b.ingress);
  }

  lemma SettledAtIsFixed(t: Tables, deleteFails: bool, i: nat, b: Blocks)
    requires i < |REGISTRY| && i != 2 && SettledAt(t, i, b)
    ensures var r := Apply(t, deleteFails, REGISTRY[i], b); r.Some? ==> r.value == b
  {
    if i == 0 {
      AllSettledIsFixed(b, t.v115);
    } else if i == 1 {
      Settled117IsFixed(t, b);
    } else if i == 3 {
      AllSettledIsFixed(b, t.v120);
    } else if i == 4 {
      Settled122IsFixed(t, b);
    }
  }

  // --- What a step does to a block that is not its business --------------------------------

  /** Names that some step looks for, in its table or outside it. */
  ghost predicate LookedFor(t: Tables, k: string) {
    || OldName(t, k) || IsFrom(t.v118Collector, k) || IsFrom(t.v118Agent, k)
    || IsFrom(t.v122Collector, k) || IsFrom(t.v122Agent, k) || IsFrom(t.v122Query, k)
    || k == VERIFY_HOST || k == QUERY_PORT || k == QUERY_HOST_PORT
  }

  /** No step brings back what another one, or itself, took out. */
  ghost predicate Orderly(t: Tables) { AcyclicEarly(t) && AcyclicLate(t) && TakenOutForGood(t) }

  ghost predicate AcyclicEarly(t: Tables) {
    Acyclic(t.v115) && Acyclic(t.v117) && Acyclic(t.v118Collector) && Acyclic(t.v118Agent) && Total(t.v118Collector)
  }

  ghost predicate AcyclicLate(t: Tables) {
    Acyclic(t.v120) && Acyclic(t.v122Collector) && Acyclic(t.v122Agent) && Acyclic(t.v122Query)
  }

  ghost predicate TakenOutForGood(t: Tables) { forall k :: LookedFor(t, k) ==> NeverNew(t, k) }

  /** Single values stay single, and no name comes in that a step looks for. */
  ghost predicate Narrows(t: Tables, o: Opts, p: Opts) {
    (Single(o) ==> Single(p)) && forall k :: k in p && NeverNew(t, k) ==> k in o
  }

  ghost predicate NarrowsAll(t: Tables, b: Blocks, c: Blocks) {
    && Narrows(t, b.allInOne, c.allInOne) && Narrows(t, b.collector, c.collector) && Narrows(t, b.query, c.query)
    && Narrows(t, b.agent, c.agent) && Narrows(t, b.ingester, c.ingester) && Narrows(t, b.storage, c.storage)
    && Narrows(t, b.ingress, c.ingress)
  }

  lemma MigratedNarrows(t: Tables, o: Opts, table: seq<Rename>)
    requires forall k :: NeverNew(t, k) ==> !IsTo(table, k)
    ensures Narrows(t, o, Migrated(o, table))
  {
    ReparseIdentityIff(Renamed(o, table));
    forall k | k in Migrated(o, table) && NeverNew(t, k) ensures k in o { RenamedKeys(o, table, k); }
  }

  lemma NarrowsOn(t: Tables, o: Opts, p: Opts, q: Opts)
    requires Narrows(t, o, p) && Narrows(t, p, q)
    ensures Narrows(t, o, q)
  {
  }

  lemma ReparseNarrows(t: Tables, o: Opts)
    ensures Narrows(t, o, Reparse(o))
  {
  }

  lemma KafkaNarrows(t: Tables, o: Opts)
    ensures Narrows(t, o, KafkaTls(o))
  {
  }

  lemma ColonsNarrow(t: Tables, o: Opts, table: seq<Rename>)
    ensures Narrows(t, o, Reparse(WithColons(o, table)))
  {
    WithColonsKeys(o, table);
  }

  lemma CassandraNarrows(t: Tables, o: Opts)
    requires CassandraVerify(o).Some?
    ensures Narrows(t, o, CassandraVerify(o).value)
  {
  }

  lemma QueryNarrows(t: Tables, o: Opts)
    ensures Narrows(t, o, QueryHostPort(o))
  {
  }

  lemma AllNarrow(t: Tables, b: Blocks, table: seq<Rename>)
    requires forall k :: NeverNew(t, k) ==> !IsTo(table, k)
    ensures NarrowsAll(t, b, MigratedAll(b, table))
  {
    MigratedNarrows(t, b.allInOne, table);
    MigratedNarrows(t, b.collector, table);
    MigratedNarrows(t, b.query, table);
    MigratedNarrows(t, b.agent, table);
    MigratedNarrows(t, b.ingester, table);
    MigratedNarrows(t, b.storage, table);
  }

  lemma Narrows117(t: Tables, b: Blocks)
    ensures NarrowsAll(t, b, Step117(b, t.v117))
  {
    var m := MigratedAll(b, t.v117);
    AllNarrow(t, b, t.v117);
    KafkaNarrows(t, m.collector);
    KafkaNarrows(t, m.ingester);
    KafkaNarrows(t, m.storage);
    NarrowsOn(t, b.collector, m.collector, KafkaTls(m.collector));
    NarrowsOn(t, b.ingester, m.ingester, KafkaTls(m.ingester));
    NarrowsOn(t, b.storage, m.storage, KafkaTls(m.storage));
  }

  lemma Narrows118(t: Tables, b: Blocks)
    ensures NarrowsAll(t, b, Step118(b, t.v118Collector, t.v118Agent))
  {
    var c, a := Migrated(b.collector, t.v118Collector), Migrated(b.agent, t.v118Agent);
    MigratedNarrows(t, b.collector, t.v118Collector);
    ColonsNarrow(t, c, t.v118Collector);
    NarrowsOn(t, b.collector, c, CollectorPorts(b.collector, t.v118Collector));
    MigratedNarrows(t, b.agent, t.v118Agent);
    ReparseNarrows(t, a);
    NarrowsOn(t, b.agent, a, Reparse(a));
  }

  lemma Narrows122(t: Tables, b: Blocks)
    ensures var r := Step122(b, t.v122Collector, t.v122Agent, t.v122Query); r.Some? ==> NarrowsAll(t, b, r.value)
  {
    var c, q := Migrated(b.collector, t.v122Collector), Migrated(b.query, t.v122Query);
    MigratedNarrows(t, b.allInOne, t.v122Collector);
    MigratedNarrows(t, b.collector, t.v122Collector);
    MigratedNarrows(t, b.agent, t.v122Agent);
    MigratedNarrows(t, b.query, t.v122Query);
    QueryNarrows(t, q);
    NarrowsOn(t, b.query, q, QueryHostPort(q));
    if Step122(b, t.v122Collector, t.v122Agent, t.v122Query).Some? {
      CassandraNarrows(t, c);
      NarrowsOn(t, b.collector, c, CassandraVerify(c).value);
      CassandraNarrows(t, b.storage);
      CassandraNarrows(t, b.ingress);
    }
  }

  lemma Narrows120(t: Tables, b: Blocks)
    ensures NarrowsAll(t, b, MigratedAll(b, t.v120))
  {
    AllNarrow(t, b, t.v120);
  }

  lemma EarlyStepNarrows(t: Tables, deleteFails: bool, i: nat, b: Blocks)
    requires 1 <= i <= 2
    ensures var r := Apply(t, deleteFails, REGISTRY[i], b); r.Some? ==> NarrowsAll(t, b, r.value)
  {
    if i == 1 { Narrows117(t, b); } else { Narrows118(t, b); }
  }

  lemma NarrowsItself(t: Tables, b: Blocks, sar: Option<string>)
    ensures NarrowsAll(t, b, b.(sar := sar))
  {
  }

  lemma LateStepNarrows(t: Tables, deleteFails: bool, i: nat, b: Blocks)
    requires 3 <= i < |REGISTRY|
    ensures var r := Apply(t, deleteFails, REGISTRY[i], b); r.Some? ==> NarrowsAll(t, b, r.value)
  {
    var r := Apply(t, deleteFails, REGISTRY[i], b);
    if i == 3 {
      assert r == Some(MigratedAll(b, t.v120));
      Narrows120(t, b);
    } else if i == 4 {
      assert r == Step122(b, t.v122Collector, t.v122Agent, t.v122Query);
      Narrows122(t, b);
    } else if r.Some? {
      LastStepsKeepOptions(t, deleteFails, i, b);
      NarrowsItself(t, b, r.value.sar);
    }
  }

  lemma SettledNarrow(t: Tables, o: Opts, p: Opts, table: seq<Rename>)
    requires Settled(o, table) && Narrows(t, o, p) && forall d :: d in table ==> NeverNew(t, d.from)
    ensures Settled(p, table)
  {
  }

  lemma AllSettledNarrow(t: Tables, b: Blocks, c: Blocks, table: seq<Rename>)
    requires AllSettled(b, table) && NarrowsAll(t, b, c) && forall d :: d in table ==> NeverNew(t, d.from)
    ensures AllSettled(c, table)
  {
    SettledNarrow(t, b.allInOne, c.allInOne, table);
    SettledNarrow(t, b.collector, c.collector, table);
    SettledNarrow(t, b.query, c.query, table);
    SettledNarrow(t, b.agent, c.agent, table);
    SettledNarrow(t, b.ingester, c.ingester, table);
    SettledNarrow(t, b.storage, c.storage, table);
  }

  lemma TableLookedFor(t: Tables, table: seq<Rename>)
    requires Orderly(t)
    requires table in {t.v115, t.v117, t.v118Collector, t.v118Agent, t.v120, t.v122Collector, t.v122Agent, t.v122Query}
    ensures forall d :: d in table ==> NeverNew(t, d.from)
  {
    forall d | d in table ensures NeverNew(t, d.from) { assert LookedFor(t, d.from); }
  }

  lemma Settled118Narrow(t: Tables, b: Blocks, c: Blocks)
    requires Orderly(t) && Settled118(t, b) && NarrowsAll(t, b, c)
    ensures Settled118(t, c)
  {
    TableLookedFor(t, t.v118Collector);
    TableLookedFor(t, t.v118Agent);
    SettledNarrow(t, b.collector, c.collector, t.v118Collector);
    SettledNarrow(t, b.agent, c.agent, t.v118Agent);
  }

  lemma Settled122Narrow(t: Tables, b: Blocks, c: Blocks)
    requires Orderly(t) && Settled122(t, b) && NarrowsAll(t, b, c)
    ensures Settled122(t, c)
  {
    TableLookedFor(t, t.v122Collector);
    TableLookedFor(t, t.v122Agent);
    TableLookedFor(t, t.v122Query);
    SettledNarrow(t, b.allInOne, c.allInOne, t.v122Collector);
    SettledNarrow(t, b.collector, c.collector, t.v122Collector);
    SettledNarrow(t, b.agent, c.agent, t.v122Agent);
    SettledNarrow(t, b.query, c.query, t.v122Query);
    assert LookedFor(t, VERIFY_HOST) && LookedFor(t, QUERY_PORT) && LookedFor(t, QUERY_HOST_PORT);
  }

  // --- Values that the later steps carry on ------------------------------------------------

  /** No step from 1.18.0 on reads or writes the name in the collector, ingester or storage block. */
  ghost predicate Bystander(t: Tables, k: string) {
    && !IsFrom(t.v118Collector, k) && !IsTo(t.v118Collector, k) && AfterPorts(t, k)
  }

  /** No step from 1.20.0 on does. */
  ghost predicate AfterPorts(t: Tables, k: string) {
    && !IsFrom(t.v120, k) && !IsTo(t.v120, k) && !IsFrom(t.v122Collector, k) && !IsTo(t.v122Collector, k)
    && k != VERIFY_HOST && k != SKIP_VERIFY
  }

  ghost predicate SameAt(o: Opts, p: Opts, k: string) {
    (k in o <==> k in p) && (k in o ==> Shown(o[k]) == Shown(p[k]))
  }

  lemma MigratedSameAt(o: Opts, table: seq<Rename>, k: string)
    requires !IsFrom(table, k) && !IsTo(table, k)
    ensures SameAt(o, Migrated(o, table), k)
  {
    RenamedKeys(o, table, k);
  }

  lemma ColonsSameAt(o: Opts, table: seq<Rename>, k: string)
    requires !IsTo(table, k)
    ensures SameAt(o, Reparse(WithColons(o, table)), k)
  {
    WithColonsKeys(o, table);
    if k in o { ColonsElsewhere(o, table, k); }
  }

  lemma CassandraSameAt(o: Opts, k: string)
    requires k != VERIFY_HOST && k != SKIP_VERIFY && CassandraVerify(o).Some?
    ensures SameAt(o, CassandraVerify(o).value, k)
  {
  }

  ghost predicate SameInThree(b: Blocks, c: Blocks, k: string) {
    SameAt(b.collector, c.collector, k) && SameAt(b.ingester, c.ingester, k) && SameAt(b.storage, c.storage, k)
  }

  lemma BystanderAt118(t: Tables, b: Blocks, k: string)
    requires !IsFrom(t.v118Collector, k) && !IsTo(t.v118Collector, k)
    ensures SameInThree(b, Step118(b, t.v118Collector, t.v118Agent), k)
  {
    MigratedSameAt(b.collector, t.v118Collector, k);
    ColonsSameAt(Migrated(b.collector, t.v118Collector), t.v118Collector, k);
  }

  lemma BystanderAt120(t: Tables, b: Blocks, k: string)
    requires AfterPorts(t, k)
    ensures SameInThree(b, MigratedAll(b, t.v120), k)
  {
    MigratedSameAt(b.collector, t.v120, k);
    MigratedSameAt(b.ingester, t.v120, k);
    MigratedSameAt(b.storage, t.v120, k);
  }

  lemma BystanderAt122(t: Tables, b: Blocks, k: string)
    requires AfterPorts(t, k)
    ensures var r := Step122(b, t.v122Collector, t.v122Agent, t.v122Query); r.Some? ==> SameInThree(b, r.value, k)
  {
    MigratedSameAt(b.collector, t.v122Collector, k);
    if Step122(b, t.v122Collector, t.v122Agent, t.v122Query).Some? {
      CassandraSameAt(Migrated(b.collector, t.v122Collector), k);
      CassandraSameAt(b.storage, k);
    }
  }

  lemma LateBystander(t: Tables, deleteFails: bool, i: nat, b: Blocks, k: string)
    requires 3 <= i < |REGISTRY| && AfterPorts(t, k)
    ensures var r := Apply(t, deleteFails, REGISTRY[i], b); r.Some? ==> SameInThree(b, r.value, k)
  {
    if i == 3 {
      BystanderAt120(t, b, k);
      assert Apply(t, deleteFails, REGISTRY[3], b) == Some(MigratedAll(b, t.v120));
    } else if i == 4 {
      BystanderAt122(t, b, k);
      assert Apply(t, deleteFails, REGISTRY[4], b) == Step122(b, t.v122Collector, t.v122Agent, t.v122Query);
    } else {
      LastStepsKeepOptions(t, deleteFails, i, b);
    }
  }

  lemma LastStepsKeepOptions(t: Tables, deleteFails: bool, i: nat, b: Blocks)
    requires 5 <= i < |REGISTRY|
    ensures var r := Apply(t, deleteFails, REGISTRY[i], b); r.Some? ==> r.value == b.(sar := r.value.sar)
  {
  }

  /** The Kafka flags are out of the way of the later steps. */
  ghost predicate KafkaApart(t: Tables) {
    Bystander(t, CONSUMER_AUTH) && Bystander(t, PRODUCER_AUTH) && Bystander(t, CONSUMER_TLS)
        && Bystander(t, PRODUCER_TLS)
  }

  lemma LookupSame(o: Opts, p: Opts, k: string)
    requires SameAt(o, p, k) && Single(o) && Single(p)
    ensures Lookup(o, k) == Lookup(p, k)
  {
  }

  lemma KafkaSettledSame(o: Opts, p: Opts)
    requires KafkaSettled(o) && Single(o) && Single(p)
    requires SameAt(o, p, CONSUMER_AUTH) && SameAt(o, p, PRODUCER_AUTH) && SameAt(o, p, CONSUMER_TLS)
               && SameAt(o, p, PRODUCER_TLS)
    ensures KafkaSettled(p)
  {
    LookupSame(o, p, CONSUMER_AUTH);
    LookupSame(o, p, PRODUCER_AUTH);
    LookupSame(o, p, CONSUMER_TLS);
    LookupSame(o, p, PRODUCER_TLS);
  }

  lemma Settled117Kept(t: Tables, b: Blocks, c: Blocks)
    requires Orderly(t) && Settled117(t, b) && NarrowsAll(t, b, c)
    requires SameInThree(b, c, CONSUMER_AUTH) && SameInThree(b, c, PRODUCER_AUTH)
    requires SameInThree(b, c, CONSUMER_TLS) && SameInThree(b, c, PRODUCER_TLS)
    ensures Settled117(t, c)
  {
    TableLookedFor(t, t.v117);
    AllSettledNarrow(t, b, c, t.v117);
    KafkaSettledSame(b.collector, c.collector);
    KafkaSettledSame(b.ingester, c.ingester);
    KafkaSettledSame(b.storage, c.storage);
  }

  /** What the steps from the `m`th up to the `i`th have settled. */
  ghost predicate SettledFrom(t: Tables, m: nat, i: nat, b: Blocks) { forall q :: m <= q < i ==> SettledAt(t, q, b) }

  ghost predicate KafkaSame(b: Blocks, c: Blocks) {
    && SameInThree(b, c, CONSUMER_AUTH) && SameInThree(b, c, PRODUCER_AUTH)
    && SameInThree(b, c, CONSUMER_TLS) && SameInThree(b, c, PRODUCER_TLS)
  }

  /** What the `i`th step makes of `b` keeps what an earlier step has settled. */
  ghost predicate Gentle(t: Tables, i: nat, b: Blocks, c: Blocks) {
    NarrowsAll(t, b, c) && (i >= 2 ==> KafkaSame(b, c)) && (b.sar.Some? ==> c.sar.Some?)
  }

  lemma StepIsGentle(t: Tables, deleteFails: bool, i: nat, b: Blocks)
    requires KafkaApart(t) && 1 <= i < |REGISTRY|
    ensures var r := Apply(t, deleteFails, REGISTRY[i], b); r.Some? ==> Gentle(t, i, b, r.value)
  {
    if b.sar.Some? { SarStays(t, deleteFails, i, b); }
    if i <= 2 { EarlyStepNarrows(t, deleteFails, i, b); } else { LateStepNarrows(t, deleteFails, i, b); }
    if i >= 2 { KafkaUntouched(t, deleteFails, i, b); }
  }

  lemma SarStays(t: Tables, deleteFails: bool, i: nat, b: Blocks)
    requires i < |REGISTRY| && b.sar.Some?
    ensures var r := Apply(t, deleteFails, REGISTRY[i], b); r.Some? ==> r.value.sar.Some?
  {
  }

  lemma GentleKeepsSettled(t: Tables, q: nat, i: nat, b: Blocks, c: Blocks)
    requires Orderly(t) && q < i && SettledAt(t, q, b) && Gentle(t, i, b, c)
    ensures SettledAt(t, q, c)
  {
    if q == 1 { Settled117Kept(t, b, c); } else { NarrowKeepsSettled(t, q, b, c); }
  }

  lemma NarrowKeepsSettled(t: Tables, q: nat, b: Blocks, c: Blocks)
    requires Orderly(t) && q != 1 && SettledAt(t, q, b) && NarrowsAll(t, b, c) && (b.sar.Some? ==> c.sar.Some?)
    ensures SettledAt(t, q, c)
  {
    if q == 0 {
      TableLookedFor(t, t.v115);
      AllSettledNarrow(t, b, c, t.v115);
    } else if q == 2 {
      Settled118Narrow(t, b, c);
    } else if q == 3 {
      TableLookedFor(t, t.v120);
      AllSettledNarrow(t, b, c, t.v120);
    } else if q == 4 {
      Settled122Narrow(t, b, c);
    }
  }

  lemma KafkaUntouched(t: Tables, deleteFails: bool, i: nat, b: Blocks)
    requires KafkaApart(t) && 2 <= i < |REGISTRY|
    ensures var r := Apply(t, deleteFails, REGISTRY[i], b);
            r.Some? ==> KafkaSame(b, r.value)
  {
    if i == 2 {
      BystanderAt118(t, b, CONSUMER_AUTH);
      BystanderAt118(t, b, PRODUCER_AUTH);
      BystanderAt118(t, b, CONSUMER_TLS);
      BystanderAt118(t, b, PRODUCER_TLS);
    } else {
      LateBystander(t, deleteFails, i, b, CONSUMER_AUTH);
      LateBystander(t, deleteFails, i, b, PRODUCER_AUTH);
      LateBystander(t, deleteFails, i, b, CONSUMER_TLS);
      LateBystander(t, deleteFails, i, b, PRODUCER_TLS);
    }
  }

  // --- What a step settles itself ----------------------------------------------------------

  lemma MigratedAllSettles(b: Blocks, table: seq<Rename>)
    requires Acyclic(table)
    ensures AllSettled(MigratedAll(b, table), table)
  {
    MigratedSettles(b.allInOne, table);
    MigratedSettles(b.collector, table);
    MigratedSettles(b.query, table);
    MigratedSettles(b.agent, table);
    MigratedSettles(b.ingester, table);
    MigratedSettles(b.storage, table);
  }

  lemma Step117Settles(t: Tables, b: Blocks)
    requires Orderly(t)
    ensures Settled117(t, Step117(b, t.v117))
  {
    var m := MigratedAll(b, t.v117);
    MigratedAllSettles(b, t.v117);
    TableLookedFor(t, t.v117);
    KafkaBlockSettles(t, m.collector);
    KafkaBlockSettles(t, m.ingester);
    KafkaBlockSettles(t, m.storage);
  }

  lemma KafkaBlockSettles(t: Tables, o: Opts)
    requires Settled(o, t.v117) && forall d :: d in t.v117 ==> NeverNew(t, d.from)
    ensures Settled(KafkaTls(o), t.v117) && KafkaSettled(KafkaTls(o))
  {
    KafkaNarrows(t, o);
    SettledNarrow(t, o, KafkaTls(o), t.v117);
    KafkaTlsSettles(o);
  }

  lemma Step118Settles(t: Tables, b: Blocks)
    requires Orderly(t)
    ensures Settled118(t, Step118(b, t.v118Collector, t.v118Agent))
  {
    var c, a := Migrated(b.collector, t.v118Collector), Migrated(b.agent, t.v118Agent);
    TableLookedFor(t, t.v118Collector);
    TableLookedFor(t, t.v118Agent);
    MigratedSettles(b.collector, t.v118Collector);
    ColonsNarrow(t, c, t.v118Collector);
    SettledNarrow(t, c, CollectorPorts(b.collector, t.v118Collector), t.v118Collector);
    MigratedSettles(b.agent, t.v118Agent);
    ReparseNarrows(t, a);
    SettledNarrow(t, a, Reparse(a), t.v118Agent);
  }

  lemma Step122Settles(t: Tables, b: Blocks)
    requires Orderly(t)
    ensures var r := Step122(b, t.v122Collector, t.v122Agent, t.v122Query); r.Some? ==> Settled122(t, r.value)
  {
    var r := Step122(b, t.v122Collector, t.v122Agent, t.v122Query);
    if r.Some? {
      var c, q := Migrated(b.collector, t.v122Collector), Migrated(b.query, t.v122Query);
      MigratedSettles(b.allInOne, t.v122Collector);
      MigratedSettles(b.agent, t.v122Agent);
      MigratedSettles(b.collector, t.v122Collector);
      MigratedSettles(b.query, t.v122Query);
      TableLookedFor(t, t.v122Collector);
      TableLookedFor(t, t.v122Query);
      CassandraNarrows(t, c);
      SettledNarrow(t, c, CassandraVerify(c).value, t.v122Collector);
      QueryNarrows(t, q);
      SettledNarrow(t, q, QueryHostPort(q), t.v122Query);
      QueryAddressMoves(q);
      VerificationMoves(c);
      VerificationMoves(b.storage);
      VerificationMoves(b.ingress);
      CassandraSingle(b.storage);
      CassandraSingle(b.ingress);
    }
  }

  lemma CassandraSingle(o: Opts)
    requires CassandraVerify(o).Some?
    ensures Single(CassandraVerify(o).value)
  {
  }

  lemma StepSettles(t: Tables, deleteFails: bool, i: nat, b: Blocks)
    requires Orderly(t) && i < |REGISTRY|
    ensures var r := Apply(t, deleteFails, REGISTRY[i], b); r.Some? ==> SettledAt(t, i, r.value)
  {
    if i == 0 {
      MigratedAllSettles(b, t.v115);
    } else if i == 1 {
      Step117Settles(t, b);
    } else if i == 2 {
      Step118Settles(t, b);
    } else if i == 3 {
      MigratedAllSettles(b, t.v120);
    } else if i == 4 {
      Step122Settles(t, b);
    }
  }

  lemma StepSettlesOn(t: Tables, deleteFails: bool, m: nat, i: nat, b: Blocks)
    requires Orderly(t) && KafkaApart(t) && m <= i < |REGISTRY| && SettledFrom(t, m, i, b)
    ensures var r := Apply(t, deleteFails, REGISTRY[i], b); r.Some? ==> SettledFrom(t, m, i + 1, r.value)
  {
    var r := Apply(t, deleteFails, REGISTRY[i], b);
    if r.Some? {
      StepSettles(t, deleteFails, i, b);
      if i > 0 { StepIsGentle(t, deleteFails, i, b); }
      forall q | m <= q < i ensures SettledAt(t, q, r.value) { GentleKeepsSettled(t, q, i, b, r.value); }
    }
  }

  // --- Which instances have a port flag when 1.18.0 runs -----------------------------------

  /** An old or a new port flag of 1.18.0. */
  ghost predicate IsPort(t: Tables, k: string) { IsFrom(t.v118Collector, k) || IsTo(t.v118Collector, k) }

  ghost predicate PortsIn(t: Tables, o: Opts) { exists k :: IsPort(t, k) && k in o }

  ghost predicate NewPortsIn(t: Tables, o: Opts) { exists k :: IsTo(t.v118Collector, k) && k in o }

  /** The option is renamed to a port flag by 1.15.0. */
  ghost predicate BecomesPort(t: Tables, o: Opts) { exists d :: d in t.v115 && IsPort(t, d.to) && d.from in o }

  /** From the `m`th step on, a port flag reaches 1.18.0. */
  ghost predicate PortsReach(t: Tables, m: nat, o: Opts) { PortsIn(t, o) || (m == 0 && BecomesPort(t, o)) }

  ghost predicate DistinctFroms(table: seq<Rename>) {
    forall i, j :: 0 <= i < j < |table| ==> table[i].from != table[j].from
  }

  /** No step but 1.18.0 touches the port flags, apart from what 1.15.0 renames to them. */
  ghost predicate PortsApart(t: Tables) {
    && DistinctFroms(t.v115)
    && forall k :: IsPort(t, k) ==>
         && k != "" && !IsFrom(t.v115, k) && !IsFrom(t.v117, k) && !IsTo(t.v117, k)
         && k != CONSUMER_TLS && k != PRODUCER_TLS && AfterPorts(t, k)
  }

  /** Renaming brings `k` in. */
  ghost predicate BringsIn(o: Opts, table: seq<Rename>, k: string) {
    exists d :: d in table && d.to == k && d.from in o
  }

  lemma {:induction false} RenamedHasIff(o: Opts, table: seq<Rename>, k: string)
    requires Acyclic(table) && DistinctFroms(table) && !IsFrom(table, k) && k != ""
    ensures k in Renamed(o, table) <==> k in o || BringsIn(o, table, k)
    decreases |table|
  {
    if table != [] {
      RestIsLike(table, k);
      RenamedHasIff(RenameOne(o, table[0]), table[1..], k);
      BringsInRest(o, table, k);
    }
  }

  lemma RestIsLike(table: seq<Rename>, k: string)
    requires table != [] && Acyclic(table) && DistinctFroms(table) && !IsFrom(table, k)
    ensures Acyclic(table[1..]) && DistinctFroms(table[1..]) && !IsFrom(table[1..], k)
  {
    var rest := table[1..];
    assert forall d :: d in rest ==> d in table;
  }

  lemma BringsInRest(o: Opts, table: seq<Rename>, k: string)
    requires table != [] && Acyclic(table) && DistinctFroms(table) && !IsFrom(table, k) && k != ""
    ensures var c := RenameOne(o, table[0]);
            k in c || BringsIn(c, table[1..], k) <==> k in o || BringsIn(o, table, k)
  {
    var c, rest := RenameOne(o, table[0]), table[1..];
    OthersStay(o, table);
    assert table[0] in table && forall d :: d in table <==> d == table[0] || d in rest;
    FirstBrings(o, table[0], k);
  }

  lemma FirstBrings(o: Opts, d: Rename, k: string)
    requires d.from != k && k != ""
    ensures k in RenameOne(o, d) <==> k in o || (d.to == k && d.from in o)
  {
  }

  lemma OthersStay(o: Opts, table: seq<Rename>)
    requires table != [] && Acyclic(table) && DistinctFroms(table)
    ensures forall d :: d in table[1..] ==> (d.from in RenameOne(o, table[0]) <==> d.from in o)
  {
    forall d | d in table[1..] ensures d.from in RenameOne(o, table[0]) <==> d.from in o {
      var i :| 0 <= i < |table[1..]| && table[1..][i] == d;
      assert table[i + 1] == d && table[0] in table;
    }
  }

  lemma Ports115(t: Tables, o: Opts)
    requires Orderly(t) && PortsApart(t)
    ensures PortsIn(t, Migrated(o, t.v115)) <==> PortsReach(t, 0, o)
  {
    forall k | IsPort(t, k) ensures k in Migrated(o, t.v115) <==> k in o || BringsIn(o, t.v115, k) {
      RenamedHasIff(o, t.v115, k);
    }
    if BecomesPort(t, o) {
      var d :| d in t.v115 && IsPort(t, d.to) && d.from in o;
      assert d.to in Migrated(o, t.v115);
    }
  }

  lemma KafkaSameAt(o: Opts, k: string)
    requires k != CONSUMER_TLS && k != PRODUCER_TLS
    ensures SameAt(o, KafkaTls(o), k)
  {
  }

  lemma Ports117(t: Tables, o: Opts)
    requires PortsApart(t)
    ensures PortsIn(t, KafkaTls(Migrated(o, t.v117))) <==> PortsIn(t, o)
  {
    forall k | IsPort(t, k) ensures k in KafkaTls(Migrated(o, t.v117)) <==> k in o {
      MigratedSameAt(o, t.v117, k);
      KafkaSameAt(Migrated(o, t.v117), k);
    }
  }

  lemma UntouchedIff(t: Tables, o: Opts)
    ensures Untouched(o, t.v118Collector) <==> !PortsIn(t, o)
  {
    if Untouched(o, t.v118Collector) {
      forall k | IsPort(t, k) ensures k !in o { }
    } else {
      var d :| d in t.v118Collector && (d.from in o || d.to in o);
      assert IsPort(t, d.from) && IsPort(t, d.to);
    }
  }

  lemma Ports118(t: Tables, o: Opts)
    requires Orderly(t)
    ensures NewPortsIn(t, CollectorPorts(o, t.v118Collector)) <==> PortsIn(t, o)
  {
    var table := t.v118Collector;
    UntouchedIff(t, o);
    if Untouched(o, table) {
      UntouchedPorts(o, table);
    } else {
      var d :| d in table && (d.from in o || d.to in o);
      RenamedMentions(o, table, d);
      var e :| e in table && e.to in Renamed(o, table);
      WithColonsKeys(Migrated(o, table), table);
      assert IsTo(table, e.to) && e.to in CollectorPorts(o, table);
    }
  }

  lemma PortsLater(t: Tables, deleteFails: bool, i: nat, b: Blocks)
    requires PortsApart(t) && 3 <= i < |REGISTRY|
    ensures var r := Apply(t, deleteFails, REGISTRY[i], b);
            r.Some? ==> (NewPortsIn(t, r.value.collector) <==> NewPortsIn(t, b.collector))
  {
    var r := Apply(t, deleteFails, REGISTRY[i], b);
    if r.Some? {
      forall k | IsTo(t.v118Collector, k) ensures k in r.value.collector <==> k in b.collector {
        assert IsPort(t, k);
        LateBystander(t, deleteFails, i, b, k);
      }
    }
  }

  /** Where the port flags of the collector block `o` are after the steps from the `m`th up to the `q`th. */
  ghost predicate PortFate(t: Tables, m: nat, q: nat, o: Opts, b: Blocks) {
    && (q == m ==> b.collector == o)
    && (m < q <= 2 ==> (PortsIn(t, b.collector) <==> PortsReach(t, m, o)))
    && (m <= 2 < q ==> (NewPortsIn(t, b.collector) <==> PortsReach(t, m, o)))
  }

  lemma PortFateFirst(t: Tables, o: Opts, b: Blocks)
    requires Orderly(t) && PortsApart(t) && PortFate(t, 0, 0, o, b)
    ensures PortFate(t, 0, 1, o, MigratedAll(b, t.v115))
  {
    Ports115(t, b.collector);
  }

  lemma PortFateSecond(t: Tables, m: nat, o: Opts, b: Blocks)
    requires PortsApart(t) && m <= 1 && PortFate(t, m, 1, o, b)
    ensures PortFate(t, m, 2, o, Step117(b, t.v117))
  {
    Ports117(t, b.collector);
  }

  lemma PortFateRewrite(t: Tables, m: nat, o: Opts, b: Blocks)
    requires Orderly(t) && m <= 2 && PortFate(t, m, 2, o, b)
    ensures PortFate(t, m, 3, o, Step118(b, t.v118Collector, t.v118Agent))
  {
    Ports118(t, b.collector);
  }

  lemma PortFateStep(t: Tables, deleteFails: bool, m: nat, q: nat, o: Opts, b: Blocks)
    requires Orderly(t) && PortsApart(t) && m <= q < |REGISTRY| && PortFate(t, m, q, o, b)
    ensures var r := Apply(t, deleteFails, REGISTRY[q], b); r.Some? ==> PortFate(t, m, q + 1, o, r.value)
  {
    if q == 0 {
      PortFateFirst(t, o, b);
    } else if q == 1 {
      PortFateSecond(t, m, o, b);
    } else if q == 2 {
      PortFateRewrite(t, m, o, b);
    } else {
      PortsLater(t, deleteFails, q, b);
    }
  }

  // --- The second run ----------------------------------------------------------------------

  /** 1.18.0 on an instance that has been through it: a colon more on every new port flag. */
  lemma Step118AgainIff(t: Tables, b: Blocks)
    requires Settled118(t, b)
    ensures Step118(b, t.v118Collector, t.v118Agent) == b <==> !NewPortsIn(t, b.collector)
  {
    var o, table := b.collector, t.v118Collector;
    SettledIsFixed(o, table);
    SettledIsFixed(b.agent, t.v118Agent);
    ReparseIdentityIff(b.agent);
    if NewPortsIn(t, o) {
      var k :| IsTo(table, k) && k in o;
      ColonsLengthen(o, table, k);
      assert Shown(CollectorPorts(o, table)[k]) != Shown(o[k]);
    } else {
      forall d | d in table ensures d.to !in o { assert IsTo(table, d.to); }
      NoColons(o, table);
      ReparseIdentityIff(o);
    }
  }

  /** The instance in the second run, before its `q`th step. */
  function Again(t: Tables, m: nat, q: nat, b: Blocks): Blocks {
    if m <= 2 < q then Step118(b, t.v118Collector, t.v118Agent) else b
  }

  lemma AgainStep(t: Tables, deleteFails: bool, m: nat, n: nat, q: nat, b: Blocks)
    requires Orderly(t) && m <= q < n <= |REGISTRY| && SettledFrom(t, m, n, b)
    ensures var r := Apply(t, deleteFails, REGISTRY[q], Again(t, m, q, b)); r.Some? ==> r.value == Again(t, m, q + 1, b)
  {
    assert SettledAt(t, q, b);
    if q != 2 {
      if m <= 2 < q {
        Narrows118(t, b);
        NarrowKeepsSettled(t, q, b, Again(t, m, q, b));
      }
      SettledAtIsFixed(t, deleteFails, q, Again(t, m, q, b));
    }
  }

  lemma RunStretch<S(!new)>(steps: Steps<S>, list: seq<Version>, m: nat, n: nat, holds: (nat, S) -> bool,
      j: Instance<S>)
    requires m <= n <= |list| && holds(m, j.spec)
    requires forall q: nat, x: Instance<S> :: m <= q < n && holds(q, x.spec) && steps(list[q], x).Done? ==>
               holds(q + 1, steps(list[q], x).instance.spec)
    ensures var r := RunSteps(steps, list[m..n], j); r.ok ==> holds(n, r.instance.spec)
  {
    var plan := list[m..n];
    ghost var shifted := (i: nat, x: S) => holds(m + i, x);
    assert plan[0..] == plan && shifted(0, j.spec);
    RunInvariant(steps, plan, 0, shifted, j);
  }

  lemma SecondRun(t: Tables, deleteFails: bool, m: nat, n: nat, j: Instance<Blocks>)
    requires Orderly(t) && m <= n <= |REGISTRY| && SettledFrom(t, m, n, j.spec)
    ensures var r := RunSteps(JaegerSteps(t, deleteFails), REGISTRY[m..n], j);
            r.ok ==> r.instance.spec == Again(t, m, n, j.spec)
  {
    ghost var holds := (q: nat, x: Blocks) => x == Again(t, m, q, j.spec);
    forall q: nat, x: Instance<Blocks> | m <= q < n && holds(q, x.spec)
        && JaegerSteps(t, deleteFails)(REGISTRY[q], x).Done?
      ensures holds(q + 1, JaegerSteps(t, deleteFails)(REGISTRY[q], x).instance.spec)
    {
      AgainStep(t, deleteFails, m, n, q, j.spec);
    }
    assert Again(t, m, m, j.spec) == j.spec;
    RunStretch(JaegerSteps(t, deleteFails), REGISTRY, m, n, holds, j);
  }

  lemma FirstRunSettles(t: Tables, deleteFails: bool, m: nat, n: nat, j: Instance<Blocks>)
    requires Orderly(t) && KafkaApart(t) && m <= n <= |REGISTRY|
    ensures var r := RunSteps(JaegerSteps(t, deleteFails), REGISTRY[m..n], j);
            r.ok ==> SettledFrom(t, m, n, r.instance.spec)
  {
    ghost var holds := (q: nat, x: Blocks) => SettledFrom(t, m, q, x);
    forall q: nat, x: Instance<Blocks> | m <= q < n && holds(q, x.spec)
        && JaegerSteps(t, deleteFails)(REGISTRY[q], x).Done?
      ensures holds(q + 1, JaegerSteps(t, deleteFails)(REGISTRY[q], x).instance.spec)
    {
      StepSettlesOn(t, deleteFails, m, q, x.spec);
    }
    assert SettledFrom(t, m, m, j.spec);
    RunStretch(JaegerSteps(t, deleteFails), REGISTRY, m, n, holds, j);
  }

  lemma PortFateOnInstance(t: Tables, deleteFails: bool, m: nat, q: nat, o: Opts, x: Instance<Blocks>)
    requires Orderly(t) && PortsApart(t) && m <= q < |REGISTRY| && PortFate(t, m, q, o, x.spec)
    ensures var s := JaegerSteps(t, deleteFails)(REGISTRY[q], x); s.Done? ==> PortFate(t, m, q + 1, o, s.instance.spec)
  {
    PortFateStep(t, deleteFails, m, q, o, x.spec);
  }

  lemma FirstRunPorts(t: Tables, deleteFails: bool, m: nat, n: nat, j: Instance<Blocks>)
    requires Orderly(t) && PortsApart(t) && m <= n <= |REGISTRY|
    ensures var r := RunSteps(JaegerSteps(t, deleteFails), REGISTRY[m..n], j);
            r.ok ==> PortFate(t, m, n, j.spec.collector, r.instance.spec)
  {
    var o := j.spec.collector;
    ghost var holds := (q: nat, x: Blocks) => PortFate(t, m, q, o, x);
    forall q: nat, x: Instance<Blocks> | m <= q < n && holds(q, x.spec)
        && JaegerSteps(t, deleteFails)(REGISTRY[q], x).Done?
      ensures holds(q + 1, JaegerSteps(t, deleteFails)(REGISTRY[q], x).instance.spec)
    {
      PortFateOnInstance(t, deleteFails, m, q, o, x);
    }
    assert PortFate(t, m, m, o, j.spec);
    RunStretch(JaegerSteps(t, deleteFails), REGISTRY, m, n, holds, j);
  }

  /** The plan from any version is a stretch of the registry. */
  lemma PlanAfterPrefix(current: Version, latest: Version)
    requires AtMost(START, current) && AtMost(current, latest)
    ensures REGISTRY[..Reached(latest)] == REGISTRY[..Reached(current)] + Plan(REGISTRY, current, latest)
  {
    PlanIsPrefix(START, current);
    PlanIsPrefix(START, latest);
    RegistrySplit(current, latest);
  }

  lemma RegistrySplit(current: Version, latest: Version)
    requires AtMost(START, current) && AtMost(current, latest)
    ensures Plan(REGISTRY, START, latest) == Plan(REGISTRY, START, current) + Plan(REGISTRY, current, latest)
  {
    StepsAreBlind(RegisteredTables(), false);
    PlanSplit(REGISTRY, START, current, latest);
  }

  lemma PlanIsStretch(current: Version, latest: Version)
    requires AtMost(START, current) && AtMost(current, latest)
    ensures Reached(current) <= Reached(latest)
    ensures Plan(REGISTRY, current, latest) == REGISTRY[Reached(current)..Reached(latest)]
  {
    PlanAfterPrefix(current, latest);
    BehindPrefix(REGISTRY, Reached(current), Reached(latest), Plan(REGISTRY, current, latest));
  }

  lemma BehindPrefix(s: seq<Version>, m: nat, n: nat, p: seq<Version>)
    requires m <= |s| && n <= |s| && s[..n] == s[..m] + p
    ensures m <= n && p == s[m..n]
  {
    assert n == |s[..n]| == m + |p|;
    assert s[..n][m..] == p;
  }

  /** The tables keep out of each other's way. */
  ghost predicate Regular(t: Tables) { Orderly(t) && KafkaApart(t) && PortsApart(t) }

  /** What the next start finds when the instance was patched and its status was not. */
  function Torn(j: Instance<Blocks>, upgraded: Blocks): Instance<Blocks> { Instance(j.version, upgraded) }

  /** 1.18.0 is due and a port flag, old or new, reaches it. */
  ghost predicate PortsRewritten(t: Tables, j: Instance<Blocks>, latest: Version)
    requires j.version.Some?
  {
    && Less(j.version.value, V118) && AtMost(V118, latest)
    && (PortsIn(t, j.spec.collector) || (Less(j.version.value, V115) && BecomesPort(t, j.spec.collector)))
  }

  /**
   The upgrade after a torn patch ends like the uninterrupted one if and only if 1.18.0 was not
   due or no port flag reached it; otherwise it ends with one more run of 1.18.0.
   */
  lemma TornPatchIff(t: Tables, fails: bool, failsAgain: bool, j: Instance<Blocks>, latest: Version)
    requires Regular(t)
    requires j.version.Some? && AtMost(START, j.version.value) && AtMost(j.version.value, latest)
    requires Upgraded(JaegerSteps(t, fails), REGISTRY, j, latest).ok
    requires var done := Upgraded(JaegerSteps(t, fails), REGISTRY, j, latest).instance.spec;
             Upgraded(JaegerSteps(t, failsAgain), REGISTRY, Torn(j, done), latest).ok
    ensures var once := Upgraded(JaegerSteps(t, fails), REGISTRY, j, latest);
            var again := Upgraded(JaegerSteps(t, failsAgain), REGISTRY, Torn(j, once.instance.spec), latest);
            && (again == once <==> !PortsRewritten(t, j, latest))
            && (PortsRewritten(t, j, latest) ==>
                  again.instance.spec == Step118(once.instance.spec, t.v118Collector, t.v118Agent))
  {
    var m, n := Reached(j.version.value), Reached(latest);
    PlanIsStretch(j.version.value, latest);
    TornStretchIff(t, fails, failsAgain, m, n, j);
    assert m <= 2 < n <==> Less(j.version.value, V118) && AtMost(V118, latest);
  }

  /** The two runs over a stretch of the registry. */
  lemma TornStretchIff(t: Tables, fails: bool, failsAgain: bool, m: nat, n: nat, j: Instance<Blocks>)
    requires Regular(t) && m <= n <= |REGISTRY|
    requires RunSteps(JaegerSteps(t, fails), REGISTRY[m..n], j).ok
    requires var done := RunSteps(JaegerSteps(t, fails), REGISTRY[m..n], j).instance.spec;
             RunSteps(JaegerSteps(t, failsAgain), REGISTRY[m..n], Torn(j, done)).ok
    ensures var b := RunSteps(JaegerSteps(t, fails), REGISTRY[m..n], j).instance.spec;
            var c := RunSteps(JaegerSteps(t, failsAgain), REGISTRY[m..n], Torn(j, b)).instance.spec;
            var rewritten := m <= 2 < n && PortsReach(t, m, j.spec.collector);
            (c == b <==> !rewritten) && (rewritten ==> c == Step118(b, t.v118Collector, t.v118Agent))
  {
    FirstRunSettles(t, fails, m, n, j);
    FirstRunPorts(t, fails, m, n, j);
    var b := RunSteps(JaegerSteps(t, fails), REGISTRY[m..n], j).instance.spec;
    SecondRun(t, failsAgain, m, n, Torn(j, b));
    if m <= 2 < n {
      assert SettledAt(t, 2, b);
      Step118AgainIff(t, b);
    }
  }

  // --- With the registered tables ----------------------------------------------------------

  /** How the registered names are told apart: by their first two letters and their last. */
  lemma PortNameShape(k: string)
    requires IsFrom(T118_COLLECTOR, k) || IsTo(T118_COLLECTOR, k)
    ensures |k| > 1 && k[0] in {'a', 'c'} && k[1] in {'d', 'o'} && LastChar(k) == 't'
  {
    var d :| d in T118_COLLECTOR && (d.from == k || d.to == k);
    if d.from == k { PortFromShape(d); } else { PortToShape(d); }
  }

  lemma PortFromShape(d: Rename)
    requires d in T118_COLLECTOR
    ensures |d.from| > 1 && d.from[0] in {'a', 'c'} && d.from[1] in {'d', 'o'} && LastChar(d.from) == 't'
  {
  }

  lemma PortToShape(d: Rename)
    requires d in T118_COLLECTOR
    ensures |d.to| > 1 && d.to[0] in {'a', 'c'} && d.to[1] in {'d', 'o'} && LastChar(d.to) == 't'
  {
  }

  lemma NameShapes120()
    ensures forall d :: d in T120 ==> d.from != "" && d.to != "" && d.from[0] == d.to[0] == 'e'
  {
  }

  lemma NameShapes122()
    ensures forall d :: d in T122_COLLECTOR ==> LastChar(d.from) == LastChar(d.to) == 's'
    ensures forall d :: d in T122_COLLECTOR ==> d.from != "" && d.to != "" && d.from[0] == 'j' && d.to[0] == 'c'
  {
  }

  lemma CassandraNameShapes()
    ensures VERIFY_HOST[0] == SKIP_VERIFY[0] == 'c' && VERIFY_HOST[1] == SKIP_VERIFY[1] == 'a'
  {
  }

  lemma PortsAfterPorts(k: string)
    requires IsPort(RegisteredTables(), k)
    ensures AfterPorts(RegisteredTables(), k)
  {
    PortNameShape(k);
    NameShapes120();
    NameShapes122();
    CassandraNameShapes();
  }

  lemma KafkaNameApart(k: string)
    requires k != "" && k[0] == 'k'
    ensures Bystander(RegisteredTables(), k)
  {
    NameShapes120();
    NameShapes122();
    CassandraNameShapes();
    forall d | d in T118_COLLECTOR ensures d.from != k && d.to != k {
      PortFromShape(d);
      PortToShape(d);
    }
  }

  lemma RegisteredKafkaApart()
    ensures KafkaApart(RegisteredTables())
  {
    assert CONSUMER_AUTH[0] == PRODUCER_AUTH[0] == CONSUMER_TLS[0] == PRODUCER_TLS[0] == 'k';
    KafkaNameApart(CONSUMER_AUTH);
    KafkaNameApart(PRODUCER_AUTH);
    KafkaNameApart(CONSUMER_TLS);
    KafkaNameApart(PRODUCER_TLS);
  }

  lemma DistinctFroms115()
    ensures DistinctFroms(T115)
  {
    assert |T115[0].from| == 28 && |T115[1].from| == 19 && |T115[2].from| == 28 && |T115[3].from| == 19;
    assert |T115[4].from| == 22 && |T115[5].from| == 40 && |T115[6].from| == 32;
    assert T115[0].from[0] == T115[1].from[0] == 'c' && T115[2].from[0] == T115[3].from[0] == 'd';
  }

  lemma From115Shape(d: Rename)
    requires d in T115
    ensures |d.from| in {28, 19, 22, 40, 32} && (|d.from| == 19 ==> d.from[11] in {'o', 'i'})
  {
    assert T115[1].from[11] == 'o' && T115[3].from[11] == 'i';
  }

  lemma From118Shape(e: Rename)
    requires e in T118_COLLECTOR
    ensures |e.from| in {14, 19, 26, 15} && (|e.from| == 19 ==> e.from[11] in {'t', 'r'})
  {
  }

  lemma PortsAre115Apart(d: Rename, e: Rename)
    requires d in T115 && e in T118_COLLECTOR
    ensures d.from != e.from && d.from != e.to
  {
    Separate115From118();
    From115Shape(d);
    From118Shape(e);
  }

  lemma PortsAre117Apart(k: string)
    requires IsPort(RegisteredTables(), k)
    ensures !IsFrom(TlsTable(TLS_PREFIXES), k) && !IsTo(TlsTable(TLS_PREFIXES), k) && k != CONSUMER_TLS
              && k != PRODUCER_TLS
  {
    PortNameShape(k);
    forall d | d in TlsTable(TLS_PREFIXES) ensures d.from != k && d.to != k { TlsRow(d); }
    assert LastChar(CONSUMER_TLS) == LastChar(PRODUCER_TLS) == 'd';
  }

  lemma RegisteredPortsApart()
    ensures PortsApart(RegisteredTables())
  {
    var t := RegisteredTables();
    DistinctFroms115();
    forall k | IsPort(t, k)
      ensures k != "" && !IsFrom(t.v115, k) && !IsFrom(t.v117, k) && !IsTo(t.v117, k)
              && k != CONSUMER_TLS && k != PRODUCER_TLS && AfterPorts(t, k)
    {
      PortNameShape(k);
      PortsAfterPorts(k);
      PortsAre117Apart(k);
      var e :| e in T118_COLLECTOR && (e.from == k || e.to == k);
      forall d | d in T115 ensures d.from != k { PortsAre115Apart(d, e); }
    }
  }

  lemma NeverNewWhen(k: string)
    requires LastChar(k) !in {'d', 'y', ' '} && k != ""
    requires !IsTo(T118_COLLECTOR, k) && !IsTo(T120, k) && !IsTo(T122_COLLECTOR, k) && !IsTo(T122_AGENT, k)
    requires k != QUERY_GRPC && k != QUERY_HTTP
    ensures NeverNew(RegisteredTables(), k)
  {
    NotEnabled(k);
    NotDropped(k);
  }

  lemma NewNameShapes()
    ensures forall d :: d in T120 ==> d.to != "" && d.to[0] == 'e'
    ensures forall d :: d in T122_COLLECTOR + T122_AGENT ==>
              d.to != "" && d.to[0] in {'a', 'c'} && LastChar(d.to) == 's'
    ensures QUERY_GRPC[0] == QUERY_HTTP[0] == 'q'
  {
  }

  /** A name with another first letter than the new names have. */
  lemma NeverNewByFirst(k: string)
    requires LastChar(k) !in {'d', 'y', ' '} && k != "" && k[0] !in {'a', 'c', 'e', 'q'}
    ensures NeverNew(RegisteredTables(), k)
  {
    NewNameShapes();
    forall d | d in T118_COLLECTOR ensures d.to != k { PortToShape(d); }
    assert forall d :: d in T122_COLLECTOR || d in T122_AGENT ==> d in T122_COLLECTOR + T122_AGENT;
    NeverNewWhen(k);
  }

  /** A name that starts like a collector name, but is none of the new port flags. */
  lemma NeverNewCollector(k: string)
    requires LastChar(k) == 't' && k != "" && k[0] in {'a', 'c'} && !IsTo(T118_COLLECTOR, k)
    ensures NeverNew(RegisteredTables(), k)
  {
    NewNameShapes();
    assert forall d :: d in T122_COLLECTOR || d in T122_AGENT ==> d in T122_COLLECTOR + T122_AGENT;
    NeverNewWhen(k);
  }

  lemma PortFromsNeverNew(k: string)
    requires IsFrom(T118_COLLECTOR, k)
    ensures NeverNew(RegisteredTables(), k)
  {
    PortNameShape(k);
    Acyclic118();
    NeverNewCollector(k);
  }

  lemma AgentFromShape(d: Rename)
    requires d in T118_AGENT
    ensures d.from == "collector.host-port" || (d.from != "" && d.from[0] == 'r' && LastChar(d.from) in {'t', 's'})
  {
    assert T118_AGENT[1].from[0] == T118_AGENT[2].from[0] == T118_AGENT[3].from[0] == T118_AGENT[4].from[0] == 'r';
    assert LastChar(T118_AGENT[1].from) == LastChar(T118_AGENT[3].from) == LastChar(T118_AGENT[4].from) == 't';
    assert LastChar(T118_AGENT[2].from) == 's';
  }

  lemma HostPortIsNoNewPort()
    ensures !IsTo(T118_COLLECTOR, "collector.host-port") && LastChar("collector.host-port") == 't'
  {
    assert |"collector.host-port"| == 19;
    assert forall d :: d in T118_COLLECTOR ==> |d.to| in {32, 31, 26, 20};
  }

  lemma AgentFromsNeverNew(k: string)
    requires IsFrom(T118_AGENT, k)
    ensures NeverNew(RegisteredTables(), k)
  {
    var d :| d in T118_AGENT && d.from == k;
    AgentFromShape(d);
    if k == "collector.host-port" {
      HostPortIsNoNewPort();
      NeverNewCollector(k);
    } else {
      NeverNewByFirst(k);
    }
  }

  lemma From122Shapes(d: Rename)
    requires d in T122_COLLECTOR || d in T122_AGENT || d in T122_QUERY
    ensures d.from != "" && d.from[0] in {'j', 'd'} && LastChar(d.from) in {'s', 't', 'o'}
  {
  }

  lemma VerifyHostNeverNew()
    ensures NeverNew(RegisteredTables(), VERIFY_HOST)
  {
    VerifyHostIsNoPort();
    NeverNewCollector(VERIFY_HOST);
  }

  lemma VerifyHostIsNoPort()
    ensures LastChar(VERIFY_HOST) == 't' && VERIFY_HOST != "" && VERIFY_HOST[0] == 'c'
              && !IsTo(T118_COLLECTOR, VERIFY_HOST)
  {
    assert VERIFY_HOST[0] == 'c' && VERIFY_HOST[1] == 'a' && LastChar(VERIFY_HOST) == 't';
    forall d | d in T118_COLLECTOR ensures d.to != VERIFY_HOST { PortToShape(d); }
  }

  lemma QueryPortsNeverNew(k: string)
    requires k in {QUERY_PORT, QUERY_HOST_PORT}
    ensures NeverNew(RegisteredTables(), k)
  {
    QueryNamesDiffer();
    assert QUERY_PORT[0] == QUERY_HOST_PORT[0] == 'q' && LastChar(QUERY_PORT) == LastChar(QUERY_HOST_PORT) == 't';
    NewNameShapes();
    forall d | d in T118_COLLECTOR ensures d.to != k { PortToShape(d); }
    assert forall d :: d in T122_COLLECTOR || d in T122_AGENT ==> d in T122_COLLECTOR + T122_AGENT;
    NeverNewWhen(k);
  }

  lemma LookedForNeverNew(k: string)
    requires LookedFor(RegisteredTables(), k)
    ensures NeverNew(RegisteredTables(), k)
  {
    if OldName(RegisteredTables(), k) {
      RegisteredTablesConsistent();
    } else if IsFrom(T118_COLLECTOR, k) {
      PortFromsNeverNew(k);
    } else if IsFrom(T118_AGENT, k) {
      AgentFromsNeverNew(k);
    } else if k == VERIFY_HOST {
      VerifyHostNeverNew();
    } else if k == QUERY_PORT || k == QUERY_HOST_PORT {
      QueryPortsNeverNew(k);
    } else {
      var d :| (d in T122_COLLECTOR || d in T122_AGENT || d in T122_QUERY) && d.from == k;
      From122Shapes(d);
      NeverNewByFirst(k);
    }
  }

  lemma AcyclicTls()
    ensures Acyclic(TlsTable(TLS_PREFIXES))
  {
    forall d, e | d in TlsTable(TLS_PREFIXES) && e in TlsTable(TLS_PREFIXES) ensures d.to != e.from {
      TlsRow(d);
      TlsRow(e);
    }
  }

  lemma Acyclic122()
    ensures Acyclic(T122_COLLECTOR) && Acyclic(T122_AGENT) && Acyclic(T122_QUERY)
  {
    NewNameShapes();
    assert forall d :: d in T122_COLLECTOR || d in T122_AGENT || d in T122_QUERY ==>
        d.from != "" && (d.to == "" || d.to[0] != d.from[0]);
  }

  lemma Acyclic120()
    ensures Acyclic(T120)
  {
    Separate120();
  }

  lemma RegisteredAcyclicEarly(t: Tables)
    requires t == RegisteredTables()
    ensures AcyclicEarly(t)
  {
    RegisteredRenames(t);
    RegisteredPorts(t);
  }

  lemma RegisteredRenames(t: Tables)
    requires t == RegisteredTables()
    ensures Acyclic(t.v115) && Acyclic(t.v117)
  {
    Separate115();
    AcyclicTls();
  }

  lemma RegisteredPorts(t: Tables)
    requires t == RegisteredTables()
    ensures Acyclic(t.v118Collector) && Acyclic(t.v118Agent) && Total(t.v118Collector)
  {
    Acyclic118();
    AcyclicAgent118();
    Total118();
  }

  lemma RegisteredAcyclicLate(t: Tables)
    requires t == RegisteredTables()
    ensures AcyclicLate(t)
  {
    Acyclic120();
    Acyclic122();
  }

  lemma RegisteredTakenOutForGood()
    ensures TakenOutForGood(RegisteredTables())
  {
    forall k | LookedFor(RegisteredTables(), k) ensures NeverNew(RegisteredTables(), k) { LookedForNeverNew(k); }
  }

  lemma RegisteredRegular()
    ensures Regular(RegisteredTables())
  {
    RegisteredAcyclicEarly(RegisteredTables());
    RegisteredAcyclicLate(RegisteredTables());
    RegisteredTakenOutForGood();
    RegisteredKafkaApart();
    RegisteredPortsApart();
  }

  lemma BecomesPortIff(o: Opts)
    ensures BecomesPort(RegisteredTables(), o) <==> AdminPortNames().health in o
  {
    var t, f := RegisteredTables(), AdminPortNames();
    Alone115();
    Alone118();
    assert T115[4] in T115 && T118_COLLECTOR[4] in T118_COLLECTOR;
    assert IsPort(t, f.admin);
    forall d | d in T115 && IsPort(t, d.to) ensures d.from == f.health { OnlyAdminIsPort(d); }
  }

  lemma To115Shape(d: Rename)
    requires d in T115
    ensures d == T115[4] || d.to == "" || d.to[0] == 'r' || (d.to[0] == 'c' && LastChar(d.to) == 'a')
  {
    assert LastChar(T115[0].to) == 'a' && T115[0].to[0] == 'c';
    assert T115[1].to[0] == T115[2].to[0] == T115[3].to[0] == 'r';
  }

  lemma OnlyAdminIsPort(d: Rename)
    requires d in T115 && IsPort(RegisteredTables(), d.to)
    ensures d.from == AdminPortNames().health
  {
    PortNameShape(d.to);
    To115Shape(d);
  }

  lemma RegularAsRegistered(t: Tables)
    requires t == RegisteredTables()
    ensures Regular(t)
  {
    RegisteredRegular();
  }

  lemma RepeatableIff(t: Tables, fails: bool, failsAgain: bool, j: Instance<Blocks>, latest: Version)
    requires t == RegisteredTables()
    requires j.version.Some? && AtMost(START, j.version.value) && AtMost(j.version.value, latest)
    requires Upgraded(JaegerSteps(t, fails), REGISTRY, j, latest).ok
    requires var done := Upgraded(JaegerSteps(t, fails), REGISTRY, j, latest).instance.spec;
             Upgraded(JaegerSteps(t, failsAgain), REGISTRY, Torn(j, done), latest).ok
    ensures var once := Upgraded(JaegerSteps(t, fails), REGISTRY, j, latest);
            var again := Upgraded(JaegerSteps(t, failsAgain), REGISTRY, Torn(j, once.instance.spec), latest);
            again == once <==> !PortsRewritten(t, j, latest)
  {
    RegularAsRegistered(t);
    TornPatchIff(t, fails, failsAgain, j, latest);
  }

  /**
   With the registered steps: the upgrade after a torn patch ends like the uninterrupted one if
   and only if 1.18.0 is not in (current, latest], or the collector has none of its port flags,
   old or new, nor, below 1.15.0, the health-check port that becomes one.
   */
  lemma RegisteredTornPatchIff(fails: bool, failsAgain: bool, j: Instance<Blocks>, latest: Version)
    requires j.version.Some? && AtMost(START, j.version.value) && AtMost(j.version.value, latest)
    requires Upgraded(JaegerSteps(RegisteredTables(), fails), REGISTRY, j, latest).ok
    requires var done := Upgraded(JaegerSteps(RegisteredTables(), fails), REGISTRY, j, latest).instance.spec;
             Upgraded(JaegerSteps(RegisteredTables(), failsAgain), REGISTRY, Torn(j, done), latest).ok
    ensures var once := Upgraded(JaegerSteps(RegisteredTables(), fails), REGISTRY, j, latest);
            var again := Upgraded(JaegerSteps(RegisteredTables(), failsAgain), REGISTRY, Torn(j, once.instance.spec),
                latest);
            again == once <==>
              || !Less(j.version.value, V118) || !AtMost(V118, latest)
              || (Untouched(j.spec.collector, T118_COLLECTOR)
                  && !(Less(j.version.value, V115) && AdminPortNames().health in j.spec.collector))
  {
    RepeatableIff(RegisteredTables(), fails, failsAgain, j, latest);
    RegisteredPortsRewrittenIff(j, latest);
  }

  lemma RegisteredPortsRewrittenIff(j: Instance<Blocks>, latest: Version)
    requires j.version.Some?
    ensures PortsRewritten(RegisteredTables(), j, latest) <==>
              && Less(j.version.value, V118) && AtMost(V118, latest)
              && (!Untouched(j.spec.collector, T118_COLLECTOR)
                  || (Less(j.version.value, V115) && AdminPortNames().health in j.spec.collector))
  {
    UntouchedIff(RegisteredTables(), j.spec.collector);
    BecomesPortIff(j.spec.collector);
  }

  lemma TornPatchDoublesColon(f: PortNames, t: Tables, fails: bool, failsAgain: bool, j: Instance<Blocks>,
      latest: Version, v: string)
    requires Regular(t) && CarriesPort(f, t) && BecomesPort(t, j.spec.collector)
    requires j.version.Some? && AtMost(START, j.version.value) && Less(j.version.value, V115) && AtMost(V118, latest)
    requires Has(j.spec.collector, f.health, v)
    requires Upgraded(JaegerSteps(t, fails), REGISTRY, j, latest).ok
    requires var done := Upgraded(JaegerSteps(t, fails), REGISTRY, j, latest).instance.spec;
             Upgraded(JaegerSteps(t, failsAgain), REGISTRY, Torn(j, done), latest).ok
    ensures var done := Upgraded(JaegerSteps(t, fails), REGISTRY, j, latest).instance.spec;
            PortAt(f, 3, Upgraded(JaegerSteps(t, failsAgain), REGISTRY, Torn(j, done), latest).instance.spec.collector,
                ":" + v)
  {
    TornPatchIff(t, fails, failsAgain, j, latest);
    UpgradedPort(f, t, fails, j, latest, v);
    UpgradedIsSettled(t, fails, j, latest);
    var b := Upgraded(JaegerSteps(t, fails), REGISTRY, j, latest).instance.spec;
    PortsAgain(f, b.collector, t.v118Collector, ":" + v);
  }

  lemma RegisteredTornPatchDoublesColon(fails: bool, failsAgain: bool, j: Instance<Blocks>, latest: Version, v: string)
    requires j.version.Some? && AtMost(START, j.version.value) && Less(j.version.value, V115) && AtMost(V118, latest)
    requires Has(j.spec.collector, AdminPortNames().health, v)
    requires Upgraded(JaegerSteps(RegisteredTables(), fails), REGISTRY, j, latest).ok
    requires var done := Upgraded(JaegerSteps(RegisteredTables(), fails), REGISTRY, j, latest).instance.spec;
             Upgraded(JaegerSteps(RegisteredTables(), failsAgain), REGISTRY, Torn(j, done), latest).ok
    ensures var t := RegisteredTables();
            var done := Upgraded(JaegerSteps(t, fails), REGISTRY, j, latest).instance.spec;
            PortAt(AdminPortNames(), 3,
                Upgraded(JaegerSteps(t, failsAgain), REGISTRY, Torn(j, done), latest).instance.spec.collector, ":" + v)
  {
    RegularAsRegistered(RegisteredTables());
    RegisteredTablesCarryPort();
    BecomesPortIff(j.spec.collector);
    TornPatchDoublesColon(AdminPortNames(), RegisteredTables(), fails, failsAgain, j, latest, v);
  }

  lemma UpgradedIsSettled(t: Tables, fails: bool, j: Instance<Blocks>, latest: Version)
    requires Orderly(t) && KafkaApart(t)
    requires j.version.Some? && AtMost(START, j.version.value) && Less(j.version.value, V118) && AtMost(V118, latest)
    requires Upgraded(JaegerSteps(t, fails), REGISTRY, j, latest).ok
    ensures Settled118(t, Upgraded(JaegerSteps(t, fails), REGISTRY, j, latest).instance.spec)
  {
    var m, n := Reached(j.version.value), Reached(latest);
    PlanIsStretch(j.version.value, latest);
    FirstRunSettles(t, fails, m, n, j);
    assert SettledAt(t, 2, RunSteps(JaegerSteps(t, fails), REGISTRY[m..n], j).instance.spec);
  }
}
