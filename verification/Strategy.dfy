/**
 Choosing a strategy (pkg/strategy/controller.go, For; streaming.go): the instance is given
 defaults and stripped of what does not fit, a Kafka cluster is provisioned where none is
 named, and the controller stores the result back.
 */
module Strategy {
  import opened Text
  import opened Options
  import opened CommonSpec
  import opened UiOptions
  import MergeLaws
  import UiLaws

  type Labels = map<string, string>

  datatype Schema = Schema(enabled: Option<bool>, datacenter: string, mode: string)

  datatype Storage = Storage(
    typ: string, options: Opts,
    depsEnabled: Option<bool>, depsSchedule: string,
    cleanerEnabled: Option<bool>, cleanerSchedule: string, cleanerDays: Option<int>,
    esName: string, esNodes: int, esRedundancy: string, esResources: Option<string>,
    rolloverSchedule: string, schema: Schema)

  datatype Ingress = Ingress(enabled: Option<bool>, security: string, sar: Option<string>, skipLogout: Option<bool>)

  /** The parts of an instance that For reads or writes. */
  datatype Instance = Instance(
    name: string, ns: string, annotations: Labels, strategy: string,
    common: Spec, allInOneLabels: Labels, queryLabels: Labels, collector: Opts, ingester: Opts,
    storage: Storage, ingress: Ingress, ui: Node)

  /** Platform and configuration, fixed while the operator runs. */
  datatype Env = Env(openShift: bool, docUrl: Option<string>, shows: Node -> string)

  const ALL_IN_ONE := "allinone"
  const DEPRECATED_ALL_IN_ONE := "all-in-one"
  const STREAMING := "streaming"
  const PRODUCTION := "production"
  const MEMORY := "memory"
  const CASSANDRA := "cassandra"
  const ELASTICSEARCH := "elasticsearch"
  const BADGER := "badger"
  const STORAGE_TYPES: seq<string> := [MEMORY, CASSANDRA, ELASTICSEARCH, "kafka", BADGER, "grpc-plugin"]
  const OAUTH_PROXY := "oauth-proxy"
  const NO_SECURITY := "none"
  const ES_RESOURCES := "limits memory 16Gi, requests memory 16Gi, cpu 1"

  // --- normalize ---------------------------------------------------------------------------

  function StorageType(t: string): string { if t in STORAGE_TYPES then t else MEMORY }

  predicate Distributed(t: string) { t != MEMORY && t != BADGER }

  function NormalStrategy(strategy: string, storageType: string): string {
    if strategy in {PRODUCTION, STREAMING} && Distributed(storageType) then strategy else ALL_IN_ONE
  }

  const INSTANCE_LABEL := "app.kubernetes.io/instance"
  const MANAGED_BY_LABEL := "app.kubernetes.io/managed-by"

  function Stripped(labels: Labels): Labels { labels - {INSTANCE_LABEL, MANAGED_BY_LABEL} }

  function DefaultSar(ns: string): string {
    "{\"namespace\": \"" + ns + "\", \"resource\": \"pods\", \"verb\": \"get\"}"
  }

  function NormalIngress(env: Env, ns: string, i: Ingress): Ingress {
    var security := if env.openShift && i.security != NO_SECURITY then OAUTH_PROXY else NO_SECURITY;
    i.(security := security,
       sar := if env.openShift && security == OAUTH_PROXY && i.sar.None? then Some(DefaultSar(ns)) else i.sar)
  }

  predicate TlsNotEnabled(o: Opts) {
    !EqualFold(Lookup(o, "es.tls"), "true") && !EqualFold(Lookup(o, "es.tls.skip-host-verify"), "true")
    && EqualFold(Lookup(o, "es.tls.ca"), "")
  }

  predicate ShouldInject(s: Storage) { s.typ == ELASTICSEARCH && "es.server-urls" !in s.options }

  /** The dependencies job is enabled by itself only for plain Cassandra and external Elasticsearch. */
  predicate AutoDependencies(s: Storage) {
    s.typ in {ELASTICSEARCH, CASSANDRA} && !ShouldInject(s) && TlsNotEnabled(s.options)
  }

  function NormalStorage(s: Storage): Storage {
    var t := s.(typ := StorageType(s.typ));
    var nodes := if t.esNodes == 0 then 3 else t.esNodes;
    t.(depsEnabled := if AutoDependencies(t) then OrElse(t.depsEnabled, Some(true)) else t.depsEnabled,
       depsSchedule := OrText(t.depsSchedule, "55 23 * * *"),
       cleanerEnabled := if t.typ == ELASTICSEARCH then OrElse(t.cleanerEnabled, Some(true)) else t.cleanerEnabled,
       cleanerSchedule := OrText(t.cleanerSchedule, "55 23 * * *"),
       cleanerDays := OrElse(t.cleanerDays, Some(7)),
       esName := OrText(t.esName, "elasticsearch"),
       esNodes := nodes,
       esRedundancy := OrText(t.esRedundancy, if nodes == 1 then "ZeroRedundancy" else "SingleRedundancy"),
       esResources := OrElse(t.esResources, Some(ES_RESOURCES)),
       rolloverSchedule := OrText(t.rolloverSchedule, "0 0 * * *"))
  }

  function WishesFor(env: Env, s: Storage, i: Ingress): Wishes {
    Wishes(
      ArchiveWanted(s.options),
      s.typ != MEMORY && s.depsEnabled != Some(true),
      env.docUrl,
      i.enabled != Some(false) && i.security == OAUTH_PROXY && i.skipLogout != Some(true),
      env.shows)
  }

  /** All but the UI options, which depend on the rest. */
  function Prepared(env: Env, j: Instance): Instance {
    var storage := NormalStorage(j.storage);
    j.(name := OrText(j.name, "my-jaeger"), strategy := NormalStrategy(j.strategy, storage.typ),
       common := j.common.(labels := Stripped(j.common.labels)),
       allInOneLabels := Stripped(j.allInOneLabels), queryLabels := Stripped(j.queryLabels),
       storage := storage, ingress := NormalIngress(env, j.ns, j.ingress))
  }

  function Normalised(env: Env, j: Instance): Option<Instance> {
    var p := Prepared(env, j);
    var ui := RewrittenDocument(WishesFor(env, p.storage, p.ingress), p.ui);
    if ui.None? then None else Some(p.(ui := ui.value))
  }

  // --- What the chosen strategy changes ----------------------------------------------------

  const MARK := "jaegertracing.io/kafka-provisioned"
  const PRODUCER_BROKERS := "kafka.producer.brokers"
  const CONSUMER_BROKERS := "kafka.consumer.brokers"

  /** What provisioning puts into the collector, the ingester and the common block. */
  datatype Kafka = Kafka(producer: Opts, consumer: Opts, spec: Spec)

  function ClusterCaPath(name: string): string { "/var/run/secrets/" + name + "-cluster-ca" }
  function ClientCertPath(name: string): string { "/var/run/secrets/" + name }
  function Brokers(name: string, ns: string): string { name + "-kafka-bootstrap." + ns + ".svc.cluster.local:9093" }

  /** The Kafka cluster and its user have the name of the instance. */
  function KafkaFor(name: string, ns: string): Kafka {
    Kafka(
      map[PRODUCER_BROKERS := One(Brokers(name, ns)), "kafka.producer.authentication" := One("tls"),
          "kafka.producer.tls.enabled" := One("true"), "kafka.producer.tls.ca" := One(ClusterCaPath(name) + "/ca.crt"),
          "kafka.producer.tls.cert" := One(ClientCertPath(name) + "/user.crt"),
          "kafka.producer.tls.key" := One(ClientCertPath(name) + "/user.key")],
      map[CONSUMER_BROKERS := One(Brokers(name, ns)), "kafka.consumer.authentication" := One("tls"),
          "kafka.consumer.tls.enabled" := One("true"), "kafka.consumer.tls.ca" := One(ClusterCaPath(name) + "/ca.crt"),
          "kafka.consumer.tls.cert" := One(ClientCertPath(name) + "/user.crt"),
          "kafka.consumer.tls.key" := One(ClientCertPath(name) + "/user.key")],
      EMPTY.(volumes := [Volume("kafkauser-" + name, "secret " + name),
                         Volume("kafkauser-" + name + "-cluster-ca", "secret " + name + "-cluster-ca-cert")],
             volumeMounts := [VolumeMount("kafkauser-" + name, ClientCertPath(name)),
                              VolumeMount("kafkauser-" + name + "-cluster-ca", ClusterCaPath(name))]))
  }

  predicate Marked(annotations: Labels) { MARK in annotations && annotations[MARK] == "true" }

  predicate Provisions(j: Instance) {
    (PRODUCER_BROKERS !in j.collector && CONSUMER_BROKERS !in j.ingester) || Marked(j.annotations)
  }

  function Provisioned(j: Instance, k: Kafka): Instance {
    j.(annotations := j.annotations[MARK := "true"],
       collector := Reparse(j.collector + k.producer), ingester := Reparse(j.ingester + k.consumer),
       common := Merged([k.spec, j.common]))
  }

  /** The defaults of the schema job; only a Cassandra storage has it. */
  function WithSchema(s: Storage): Storage {
    if s.typ != CASSANDRA then s
    else if s.schema.enabled == Some(false) then s
    else s.(schema := Schema(Some(true), OrText(s.schema.datacenter, "test"), OrText(s.schema.mode, "prod")))
  }

  datatype Branch = AllInOne | Streaming(kafka: bool) | Production

  function BranchOf(j: Instance): Branch {
    if j.strategy == ALL_IN_ONE then AllInOne
    else if j.strategy == STREAMING then Streaming(Provisions(j))
    else Production
  }

  function Built(j: Instance, k: Kafka): Instance {
    var p := if BranchOf(j) == Streaming(true) then Provisioned(j, k) else j;
    p.(storage := WithSchema(p.storage))
  }

  /** The instance as For leaves it and the branch it took; None is a panic on the UI options. */
  function Chosen(env: Env, j: Instance): Option<(Instance, Branch)> {
    var n := Normalised(env, j);
    if n.None? then None else Some((Built(n.value, KafkaFor(n.value.name, n.value.ns)), BranchOf(n.value)))
  }

  // --- The fixed point ---------------------------------------------------------------------

  lemma StorageSettles(s: Storage)
    ensures var n := NormalStorage(s); NormalStorage(n) == n
  {
  }

  lemma SchemaSettles(s: Storage)
    ensures WithSchema(WithSchema(s)) == WithSchema(s)
    ensures NormalStorage(s) == s ==> NormalStorage(WithSchema(s)) == WithSchema(s)
  {
  }

  lemma IngressSettles(env: Env, ns: string, i: Ingress)
    ensures var n := NormalIngress(env, ns, i); NormalIngress(env, ns, n) == n
  {
  }

  lemma StrategySettles(strategy: string, storageType: string)
    ensures var n := NormalStrategy(strategy, storageType); NormalStrategy(n, storageType) == n
  {
  }

  lemma OptionsSettle(o: Opts, k: Opts)
    requires Single(k)
    ensures var n := Reparse(o + k); Reparse(n + k) == n && k.Keys <= n.Keys
  {
    var n := Reparse(o + k);
    assert n + k == n;
    ReparseIdentityIff(o + k);
  }

  /** Provisioning for the second time changes nothing, thanks to the absence of tolerations. */
  lemma ProvisioningSettles(j: Instance, k: Kafka)
    requires Single(k.producer) && Single(k.consumer) && k.spec.tolerations == []
    ensures var p := Provisioned(j, k); Provisioned(p, k) == p
  {
    OptionsSettle(j.collector, k.producer);
    OptionsSettle(j.ingester, k.consumer);
    MergeAgainIff(k.spec, j.common);
  }

  /** Provisioning brings in no reserved label. */
  lemma ProvisionedLabels(j: Instance, k: Kafka)
    requires k.spec.labels == map[]
    ensures Provisioned(j, k).common.labels == j.common.labels
  {
    MergedPair(k.spec, j.common);
    assert j.common.labels + map[] == j.common.labels;
  }

  /** What a second provisioning has to meet: single values, and no labels or tolerations. */
  ghost predicate Plain(k: Kafka) {
    && Single(k.producer) && Single(k.consumer) && k.spec.tolerations == [] && k.spec.labels == map[]
    && PRODUCER_BROKERS in k.producer
  }

  lemma KafkaIsPlain(name: string, ns: string)
    ensures Plain(KafkaFor(name, ns))
  {
  }

  /** Nothing is left to normalise. */
  ghost predicate Normal(env: Env, j: Instance) { Normalised(env, j) == Some(j) }

  lemma NormalisedTwice(env: Env, j: Instance)
    requires Normalised(env, j).Some?
    ensures Normal(env, Normalised(env, j).value)
  {
    var n := Normalised(env, j).value;
    StorageSettles(j.storage);
    IngressSettles(env, j.ns, j.ingress);
    StrategySettles(j.strategy, n.storage.typ);
    DocumentTwice(WishesFor(env, n.storage, n.ingress), j.ui);
    StrippedTwice(j.common.labels);
    StrippedTwice(j.allInOneLabels);
    StrippedTwice(j.queryLabels);
  }

  lemma StrippedTwice(labels: Labels)
    ensures Stripped(Stripped(labels)) == Stripped(labels)
  {
  }

  /** The changes of the chosen strategy leave the instance normal. */
  lemma SchemaKeepsNormal(env: Env, j: Instance)
    requires Normal(env, j)
    ensures Normal(env, j.(storage := WithSchema(j.storage)))
  {
    SchemaSettles(j.storage);
    var s := WithSchema(j.storage);
    assert WishesFor(env, NormalStorage(s), j.ingress) == WishesFor(env, NormalStorage(j.storage), j.ingress);
  }

  lemma ProvisioningKeepsNormal(env: Env, j: Instance, k: Kafka)
    requires Normal(env, j) && k.spec.labels == map[]
    ensures Normal(env, Provisioned(j, k))
  {
    ProvisionedLabels(j, k);
    var p := Provisioned(j, k);
    assert p.common.(labels := Stripped(p.common.labels)) == p.common;
  }

  lemma ProvisionedTwice(env: Env, n: Instance, k: Kafka)
    requires Normal(env, n) && Plain(k) && BranchOf(n) == Streaming(true)
    ensures var p := Provisioned(n, k);
            Normal(env, p) && Provisioned(p, k) == p && BranchOf(p) == Streaming(true)
  {
    ProvisioningKeepsNormal(env, n, k);
    ProvisioningSettles(n, k);
    StaysProvisioned(n, k);
  }

  lemma StaysProvisioned(n: Instance, k: Kafka)
    requires BranchOf(n) == Streaming(true)
    ensures BranchOf(Provisioned(n, k)) == Streaming(true)
  {
    assert Marked(Provisioned(n, k).annotations);
  }

  /** The schema defaults come last and neither add to nor undo the rest. */
  lemma SchemaLast(env: Env, p: Instance, k: Kafka)
    requires Normal(env, p) && (BranchOf(p) == Streaming(true) ==> Provisioned(p, k) == p)
    ensures var r := p.(storage := WithSchema(p.storage));
            Normal(env, r) && Built(r, k) == r && BranchOf(r) == BranchOf(p)
  {
    SchemaKeepsNormal(env, p);
    SchemaBuilt(p, k);
  }

  lemma SchemaBuilt(p: Instance, k: Kafka)
    requires BranchOf(p) == Streaming(true) ==> Provisioned(p, k) == p
    ensures var r := p.(storage := WithSchema(p.storage)); Built(r, k) == r && BranchOf(r) == BranchOf(p)
  {
    var r := p.(storage := WithSchema(p.storage));
    SchemaSettles(p.storage);
    if BranchOf(p) == Streaming(true) { ProvisionedStays(p, k, r.storage); }
    BuiltWhole(r, k);
  }

  lemma ProvisionedStays(p: Instance, k: Kafka, s: Storage)
    requires Provisioned(p, k) == p
    ensures var r := p.(storage := s); Provisioned(r, k) == r
  {
    assert Provisioned(p.(storage := s), k) == Provisioned(p, k).(storage := s);
  }

  /** The strategy builds nothing more where the schema is there, and Kafka if it is due. */
  lemma BuiltWhole(j: Instance, k: Kafka)
    requires WithSchema(j.storage) == j.storage && (BranchOf(j) == Streaming(true) ==> Provisioned(j, k) == j)
    ensures Built(j, k) == j
  {
  }

  lemma BuiltTwice(env: Env, n: Instance, k: Kafka)
    requires Normal(env, n) && Plain(k)
    ensures var r := Built(n, k);
            Normal(env, r) && Built(r, k) == r && BranchOf(r) == BranchOf(n) && r.name == n.name && r.ns == n.ns
  {
    if BranchOf(n) == Streaming(true) {
      ProvisionedTwice(env, n, k);
      SchemaLast(env, Provisioned(n, k), k);
    } else {
      SchemaLast(env, n, k);
    }
  }

  /**
   The strategy is a fixed point: on what it returns, For changes nothing and takes the same
   branch, on every platform and configuration and for every instance it accepts.
   */
  lemma ChosenTwice(env: Env, j: Instance)
    requires Chosen(env, j).Some?
    ensures var r := Chosen(env, j).value; Chosen(env, r.0) == Some(r)
  {
    ChosenRests(env, j);
  }

  /** For has nothing left to change. */
  ghost predicate Rests(env: Env, j: Instance) { Normal(env, j) && Built(j, KafkaFor(j.name, j.ns)) == j }

  lemma ChosenRests(env: Env, j: Instance)
    requires Chosen(env, j).Some?
    ensures var r := Chosen(env, j).value; Rests(env, r.0) && BranchOf(r.0) == r.1
  {
    NormalisedTwice(env, j);
    var n := Normalised(env, j).value;
    KafkaIsPlain(n.name, n.ns);
    BuiltTwice(env, n, KafkaFor(n.name, n.ns));
  }

  lemma AnnotationsDoNotMatter(env: Env, j: Instance, annotations: Labels)
    requires Normal(env, j)
    ensures Normal(env, j.(annotations := annotations))
  {
  }

  lemma UnmarkedIsUserKafka(env: Env, n: Instance, k: Kafka)
    requires Normal(env, n) && Plain(k) && BranchOf(n) == Streaming(true)
    ensures var r := Built(n, k);
            var unmarked := r.(annotations := r.annotations - {MARK});
            Normal(env, unmarked) && BranchOf(unmarked) == Streaming(false) && Built(unmarked, k) == unmarked
  {
    BuiltTwice(env, n, k);
    var r := Built(n, k);
    AnnotationsDoNotMatter(env, r, r.annotations - {MARK});
    BuiltHasBrokers(n, k);
    UnmarkedStays(r, k);
  }

  lemma BuiltHasBrokers(n: Instance, k: Kafka)
    requires Plain(k) && BranchOf(n) == Streaming(true)
    ensures var r := Built(n, k);
            PRODUCER_BROKERS in r.collector && r.strategy == STREAMING && WithSchema(r.storage) == r.storage
  {
    OptionsSettle(n.collector, k.producer);
    SchemaSettles(n.storage);
  }

  /** With brokers named and no marker, provisioning is off and nothing is built. */
  lemma UnmarkedStays(r: Instance, k: Kafka)
    requires PRODUCER_BROKERS in r.collector && r.strategy == STREAMING && WithSchema(r.storage) == r.storage
    ensures var unmarked := r.(annotations := r.annotations - {MARK});
            BranchOf(unmarked) == Streaming(false) && Built(unmarked, k) == unmarked
  {
  }

  /** Only the marker keeps provisioning on: without it the brokers that For itself wrote count as the user's. */
  lemma MarkerIsNeeded(env: Env, j: Instance)
    requires Chosen(env, j).Some? && Chosen(env, j).value.1 == Streaming(true)
    ensures var r := Chosen(env, j).value.0;
            var unmarked := r.(annotations := r.annotations - {MARK});
            Chosen(env, unmarked) == Some((unmarked, Streaming(false)))
  {
    NormalisedTwice(env, j);
    var n := Normalised(env, j).value;
    KafkaIsPlain(n.name, n.ns);
    UnmarkedIsUserKafka(env, n, KafkaFor(n.name, n.ns));
  }

  // --- What For answers, read off the given instance ---------------------------------------

  /** Everything in one process unless a production or streaming set-up has a storage that can be shared. */
  ghost predicate BranchFits(j: Instance, b: Branch) {
    var shared := j.strategy in {"production", "streaming"}
                  && j.storage.typ in {"cassandra", "elasticsearch", "kafka", "grpc-plugin"};
    && (b == AllInOne <==> !shared)
    && (b == Production <==> shared && j.strategy == "production")
    && (b == Streaming(true) <==> shared && j.strategy == "streaming" && KafkaIsOurs(j))
    && (b == Streaming(false) <==> shared && j.strategy == "streaming" && !KafkaIsOurs(j))
  }

  /** No brokers are configured, or an earlier reconciliation configured them. */
  ghost predicate KafkaIsOurs(j: Instance) {
    || ("kafka.producer.brokers" !in j.collector && "kafka.consumer.brokers" !in j.ingester)
    || ("jaegertracing.io/kafka-provisioned" in j.annotations
        && j.annotations["jaegertracing.io/kafka-provisioned"] == "true")
  }

  /** `r` is what was given, or `fallback` where nothing was. */
  ghost predicate Defaulted(given: string, r: string, fallback: string) { r == if given == "" then fallback else given }

  /**
   The dependencies job is decided by the user, or enabled for a plain Cassandra or an external
   Elasticsearch without TLS.
   */
  ghost predicate DependenciesFit(s: Storage, typ: string, r: Option<bool>) {
    var plain := && (typ == "cassandra" || (typ == "elasticsearch" && "es.server-urls" in s.options))
                 && !EqualFold(Lookup(s.options, "es.tls"), "true")
                 && !EqualFold(Lookup(s.options, "es.tls.skip-host-verify"), "true")
                 && Lookup(s.options, "es.tls.ca") == "";
    && (s.depsEnabled.Some? ==> r == s.depsEnabled)
    && (s.depsEnabled.None? ==> r == if plain then Some(true) else None)
  }

  ghost predicate JobsFit(s: Storage, typ: string, r: Storage) {
    && DependenciesFit(s, typ, r.depsEnabled)
    && r.cleanerEnabled == (if s.cleanerEnabled.None? && typ == "elasticsearch" then Some(true) else s.cleanerEnabled)
    && r.cleanerDays == (if s.cleanerDays.None? then Some(7) else s.cleanerDays)
    && Defaulted(s.depsSchedule, r.depsSchedule, "55 23 * * *")
    && Defaulted(s.cleanerSchedule, r.cleanerSchedule, "55 23 * * *")
    && Defaulted(s.rolloverSchedule, r.rolloverSchedule, "0 0 * * *")
  }

  ghost predicate ElasticsearchFits(s: Storage, r: Storage) {
    && Defaulted(s.esName, r.esName, "elasticsearch")
    && r.esNodes == (if s.esNodes == 0 then 3 else s.esNodes)
    && Defaulted(s.esRedundancy, r.esRedundancy, if s.esNodes == 1 then "ZeroRedundancy" else "SingleRedundancy")
    && (s.esResources.Some? ==> r.esResources == s.esResources)
    && (s.esResources.None? ==> r.esResources == Some("limits memory 16Gi, requests memory 16Gi, cpu 1"))
  }

  /** Only a Cassandra has a schema job; it runs unless it is switched off. */
  ghost predicate SchemaFits(s: Schema, typ: string, r: Schema) {
    if typ == "cassandra" && s.enabled != Some(false) then
      r.enabled == Some(true) && Defaulted(s.datacenter, r.datacenter, "test") && Defaulted(s.mode, r.mode, "prod")
    else r == s
  }

  ghost predicate StorageFits(s: Storage, r: Storage) {
    && r.typ == (if s.typ in {"memory", "cassandra", "elasticsearch", "kafka", "badger", "grpc-plugin"} then s.typ
        else "memory")
    && r.options == s.options && JobsFit(s, r.typ, r) && ElasticsearchFits(s, r)
        && SchemaFits(s.schema, r.typ, r.schema)
  }

  /** OpenShift secures the ingress by a proxy, unless told not to; without OpenShift there is none. */
  ghost predicate IngressFits(env: Env, ns: string, i: Ingress, r: Ingress) {
    var proxy := env.openShift && i.security != "none";
    && r.security == (if proxy then "oauth-proxy" else "none")
    && r.sar == (if proxy && i.sar.None?
                 then Some("{\"namespace\": \"" + ns + "\", \"resource\": \"pods\", \"verb\": \"get\"}")
                 else i.sar)
    && r.enabled == i.enabled && r.skipLogout == i.skipLogout
  }

  /** The labels by which the operator finds its objects are not the user's to set. */
  ghost predicate LabelsFit(given: Labels, r: Labels) {
    && (forall k :: k in r <==> k in given && k != "app.kubernetes.io/instance" && k != "app.kubernetes.io/managed-by")
    && forall k :: k in r ==> r[k] == given[k]
  }

  /** The names of the options on one side of the connection to Kafka. */
  datatype Connection = Connection(brokers: string, auth: string, tls: string, ca: string, cert: string, key: string)

  const PRODUCER := Connection(
    "kafka.producer.brokers", "kafka.producer.authentication", "kafka.producer.tls.enabled", "kafka.producer.tls.ca",
    "kafka.producer.tls.cert", "kafka.producer.tls.key")
  const CONSUMER := Connection(
    "kafka.consumer.brokers", "kafka.consumer.authentication", "kafka.consumer.tls.enabled", "kafka.consumer.tls.ca",
    "kafka.consumer.tls.cert", "kafka.consumer.tls.key")

  /** The options connect to the provisioned Kafka; all others are as they were, as text. */
  ghost predicate Connected(c: Connection, name: string, ns: string, o: Opts, r: Opts) {
    && Has(r, c.brokers, name + "-kafka-bootstrap." + ns + ".svc.cluster.local:9093")
    && Has(r, c.auth, "tls") && Has(r, c.tls, "true")
    && Has(r, c.ca, "/var/run/secrets/" + name + "-cluster-ca/ca.crt")
    && Has(r, c.cert, "/var/run/secrets/" + name + "/user.crt")
        && Has(r, c.key, "/var/run/secrets/" + name + "/user.key")
    && forall k :: k !in {c.brokers, c.auth, c.tls, c.ca, c.cert, c.key} ==>
         (k in r <==> k in o) && (k in o ==> r[k] == One(Shown(o[k])))
  }

  ghost predicate Has(o: Opts, k: string, v: string) { k in o && o[k] == One(v) }

  /** The common block that brings the secrets of the provisioned Kafka into the containers. */
  ghost predicate MountsKafka(name: string, s: Spec) {
    s == EMPTY.(
      volumes := [Volume("kafkauser-" + name, "secret " + name),
                  Volume("kafkauser-" + name + "-cluster-ca", "secret " + name + "-cluster-ca-cert")],
      volumeMounts := [VolumeMount("kafkauser-" + name, "/var/run/secrets/" + name),
                       VolumeMount("kafkauser-" + name + "-cluster-ca", "/var/run/secrets/" + name + "-cluster-ca")])
  }

  /** What a provisioned Kafka leaves in the instance; the stripped block is merged behind the one for Kafka. */
  ghost predicate KafkaFits(j: Instance, name: string, r: Instance) {
    && r.annotations == j.annotations["jaegertracing.io/kafka-provisioned" := "true"]
    && Connected(PRODUCER, name, j.ns, j.collector, r.collector)
        && Connected(CONSUMER, name, j.ns, j.ingester, r.ingester)
    && exists labels, s :: LabelsFit(j.common.labels, labels) && MountsKafka(name, s)
         && MergeLaws.MergeFits([s, j.common.(labels := labels)], r.common)
  }

  ghost predicate UnprovisionedFits(j: Instance, r: Instance) {
    && r.annotations == j.annotations && r.collector == j.collector && r.ingester == j.ingester
    && r.common == j.common.(labels := r.common.labels) && LabelsFit(j.common.labels, r.common.labels)
  }

  /** The wishes for the UI follow from the storage and the ingress. */
  ghost predicate WishesFit(env: Env, s: Storage, i: Ingress, w: Wishes) {
    && (w.archive <==> EqualFold(Lookup(s.options, "es-archive.enabled"), "true")
                       || EqualFold(Lookup(s.options, "cassandra-archive.enabled"), "true"))
    && (w.hideTab <==> s.typ != "memory" && s.depsEnabled != Some(true))
    && w.docUrl == env.docUrl && w.shows == env.shows
    && (w.logOut <==> i.enabled != Some(false) && i.security == "oauth-proxy" && i.skipLogout != Some(true))
  }

  ghost predicate UiFits(env: Env, s: Storage, i: Ingress, doc: Node, r: Node) {
    exists w :: WishesFit(env, s, i, w) && UiLaws.DocumentFits(w, doc, r)
  }

  /** What For leaves in the instance `j`, and the branch it takes. */
  ghost predicate ForFits(env: Env, j: Instance, r: Instance, b: Branch) {
    var name := if j.name == "" then "my-jaeger" else j.name;
    && BranchFits(j, b)
    && r.name == name && r.ns == j.ns && r.strategy == (if b == AllInOne then "allinone" else j.strategy)
    && StorageFits(j.storage, r.storage) && IngressFits(env, j.ns, j.ingress, r.ingress)
    && LabelsFit(j.allInOneLabels, r.allInOneLabels) && LabelsFit(j.queryLabels, r.queryLabels)
    && (if b == Streaming(true) then KafkaFits(j, name, r) else UnprovisionedFits(j, r))
    && UiFits(env, r.storage, r.ingress, j.ui, r.ui)
  }

  /** It panics on the UI options that the rest of the instance asks it to rewrite. */
  ghost predicate ForFails(env: Env, j: Instance) {
    exists s, i, w :: StorageFits(j.storage, s) && IngressFits(env, j.ns, j.ingress, i) && WishesFit(env, s, i, w)
                      && UiLaws.DocumentFails(w, j.ui)
  }

  lemma BranchSays(j: Instance)
    ensures BranchFits(j, BranchOf(j.(strategy := NormalStrategy(j.strategy, StorageType(j.storage.typ)))))
  {
  }

  lemma StorageSays(s: Storage)
    ensures StorageFits(s, WithSchema(NormalStorage(s)))
  {
    TypeSays(s.typ);
    JobsSay(s);
    ElasticsearchSays(s);
    SchemaSays(NormalStorage(s));
  }

  lemma TypeSays(t: string)
    ensures StorageType(t) ==
              if t in {"memory", "cassandra", "elasticsearch", "kafka", "badger", "grpc-plugin"} then t else "memory"
  {
  }

  lemma JobsSay(s: Storage)
    ensures JobsFit(s, StorageType(s.typ), NormalStorage(s))
  {
    TlsSays(s.options);
  }

  lemma ElasticsearchSays(s: Storage)
    ensures ElasticsearchFits(s, NormalStorage(s))
  {
  }

  lemma SchemaSays(n: Storage)
    ensures SchemaFits(n.schema, n.typ, WithSchema(n).schema)
  {
  }

  lemma TlsSays(o: Opts)
    ensures EqualFold(Lookup(o, "es.tls.ca"), "") <==> Lookup(o, "es.tls.ca") == ""
  {
    assert |ToLower(Lookup(o, "es.tls.ca"))| == |Lookup(o, "es.tls.ca")| && |ToLower("")| == 0;
  }

  lemma IngressSays(env: Env, ns: string, i: Ingress)
    ensures IngressFits(env, ns, i, NormalIngress(env, ns, i))
  {
  }

  lemma LabelsSay(labels: Labels)
    ensures LabelsFit(labels, Stripped(labels))
  {
  }

  ghost predicate Distinct(c: Connection) {
    && c.brokers !in {c.auth, c.tls, c.ca, c.cert, c.key} && c.auth !in {c.tls, c.ca, c.cert, c.key}
    && c.tls !in {c.ca, c.cert, c.key} && c.ca !in {c.cert, c.key} && c.cert != c.key
  }

  lemma DistinctNames()
    ensures Distinct(PRODUCER) && Distinct(CONSUMER)
  {
  }

  function OptionsOf(c: Connection, name: string, ns: string): Opts {
    map[c.brokers := One(Brokers(name, ns)), c.auth := One("tls"), c.tls := One("true"),
        c.ca := One(ClusterCaPath(name) + "/ca.crt"), c.cert := One(ClientCertPath(name) + "/user.crt"),
        c.key := One(ClientCertPath(name) + "/user.key")]
  }

  lemma ConnectedBy(c: Connection, name: string, ns: string, o: Opts)
    requires Distinct(c)
    ensures Connected(c, name, ns, o, Reparse(o + OptionsOf(c, name, ns)))
  {
    assert ClusterCaPath(name) + "/ca.crt" == "/var/run/secrets/" + name + "-cluster-ca/ca.crt";
  }

  lemma KafkaOptions(name: string, ns: string)
    ensures KafkaFor(name, ns).producer == OptionsOf(PRODUCER, name, ns)
    ensures KafkaFor(name, ns).consumer == OptionsOf(CONSUMER, name, ns)
    ensures MountsKafka(name, KafkaFor(name, ns).spec)
  {
  }

  lemma ProvisionedSays(j: Instance, n: Instance, name: string)
    requires n.annotations == j.annotations && n.collector == j.collector && n.ingester == j.ingester && n.ns == j.ns
    requires n.common == j.common.(labels := Stripped(j.common.labels))
    ensures KafkaFits(j, name, Provisioned(n, KafkaFor(name, j.ns)))
  {
    var k := KafkaFor(name, j.ns);
    KafkaOptions(name, j.ns);
    DistinctNames();
    ConnectedBy(PRODUCER, name, j.ns, j.collector);
    ConnectedBy(CONSUMER, name, j.ns, j.ingester);
    LabelsSay(j.common.labels);
    MergeLaws.MergedFits([k.spec, n.common]);
  }

  lemma WishesSay(env: Env, s: Storage, i: Ingress)
    ensures WishesFit(env, s, i, WishesFor(env, s, i))
  {
  }

  /** The parts of a normalised instance that building leaves alone. */
  lemma BuiltSays(env: Env, j: Instance)
    requires Normalised(env, j).Some?
    ensures var n := Normalised(env, j).value;
            var k := KafkaFor(n.name, n.ns);
            var r := Built(n, k);
            && r.name == n.name && r.ns == n.ns && r.strategy == n.strategy && r.ingress == n.ingress && r.ui == n.ui
            && r.allInOneLabels == n.allInOneLabels && r.queryLabels == n.queryLabels
            && r.storage == WithSchema(n.storage)
            && (BranchOf(n) == Streaming(true) ==> KafkaFits(j, n.name, r))
            && (BranchOf(n) != Streaming(true) ==> UnprovisionedFits(j, r))
  {
    var n := Normalised(env, j).value;
    LabelsSay(j.common.labels);
    if BranchOf(n) == Streaming(true) { ProvisionedSays(j, n, n.name); }
  }

  lemma UiSays(env: Env, j: Instance)
    ensures var p := Prepared(env, j);
            && (Normalised(env, j).Some? ==>
                UiFits(env, WithSchema(p.storage), p.ingress, j.ui, Normalised(env, j).value.ui))
            && (Normalised(env, j).None? ==> ForFails(env, j))
  {
    var p := Prepared(env, j);
    var w := WishesFor(env, p.storage, p.ingress);
    UiLaws.DocumentSays(w, p.ui);
    WishesSay(env, p.storage, p.ingress);
    StorageSays(j.storage);
    IngressSays(env, j.ns, j.ingress);
    assert WishesFit(env, WithSchema(p.storage), p.ingress, w);
  }

  /** The parts of a normalised instance besides storage, Kafka and UI. */
  lemma NormalisedSays(env: Env, j: Instance)
    requires Normalised(env, j).Some?
    ensures var n := Normalised(env, j).value;
            && n.name == (if j.name == "" then "my-jaeger" else j.name) && n.ns == j.ns
            && BranchFits(j, BranchOf(n)) && n.strategy == (if BranchOf(n) == AllInOne then "allinone" else j.strategy)
            && IngressFits(env, j.ns, j.ingress, n.ingress)
            && LabelsFit(j.allInOneLabels, n.allInOneLabels) && LabelsFit(j.queryLabels, n.queryLabels)
  {
    var n := Normalised(env, j).value;
    BranchSays(j);
    assert BranchOf(n) == BranchOf(j.(strategy := n.strategy));
    IngressSays(env, j.ns, j.ingress);
    LabelsSay(j.allInOneLabels);
    LabelsSay(j.queryLabels);
  }

  /** What the storage and the ingress fit decides on the wishes. */
  lemma WishesDetermined(env: Env, j: Instance, s: Storage, i: Ingress, w: Wishes)
    requires StorageFits(j.storage, s) && IngressFits(env, j.ns, j.ingress, i) && WishesFit(env, s, i, w)
    ensures w == WishesFor(env, Prepared(env, j).storage, Prepared(env, j).ingress)
  {
    StorageSays(j.storage);
    IngressSays(env, j.ns, j.ingress);
  }

  lemma FailsOnlyThen(env: Env, j: Instance)
    requires ForFails(env, j)
    ensures Normalised(env, j).None?
  {
    var s, i, w :| StorageFits(j.storage, s) && IngressFits(env, j.ns, j.ingress, i) && WishesFit(env, s, i, w)
                   && UiLaws.DocumentFails(w, j.ui);
    WishesDetermined(env, j, s, i, w);
    UiLaws.DocumentSays(w, j.ui);
  }

  /** The strategy For chooses and the instance it leaves, read off the fields of the given instance. */
  lemma ChosenSays(env: Env, j: Instance)
    ensures Chosen(env, j).None? <==> ForFails(env, j)
    ensures Chosen(env, j).Some? ==> ForFits(env, j, Chosen(env, j).value.0, Chosen(env, j).value.1)
  {
    UiSays(env, j);
    if ForFails(env, j) { FailsOnlyThen(env, j); }
    if Chosen(env, j).Some? {
      NormalisedSays(env, j);
      BuiltSays(env, j);
      StorageSays(j.storage);
    }
  }

  // --- The instance in memory --------------------------------------------------------------

  method ReservedLabelsRemoved(labels: Labels) returns (r: Labels)
    ensures r == Stripped(labels)
  {
    r := labels;
    if INSTANCE_LABEL in r { r := r - {INSTANCE_LABEL}; }
    if MANAGED_BY_LABEL in r { r := r - {MANAGED_BY_LABEL}; }
  }

  method UnknownStorage(typ: string) returns (unknown: bool)
    ensures unknown <==> typ !in STORAGE_TYPES
  {
    for i := 0 to |STORAGE_TYPES|
      invariant forall j :: 0 <= j < i ==> STORAGE_TYPES[j] != typ
    {
      if typ == STORAGE_TYPES[i] { return false; }
    }
    return true;
  }

  /** The deprecated spelling normalises like the current one. */
  lemma SameStrategy(env: Env, j: Instance, k: Instance)
    requires k == if j.strategy == DEPRECATED_ALL_IN_ONE then j.(strategy := ALL_IN_ONE) else j
    ensures Normalised(env, k) == Normalised(env, j)
  {
  }

  class Jaeger {
    var name: string
    var ns: string
    var annotations: Labels
    var strategy: string
    var common: Spec
    var allInOneLabels: Labels
    var queryLabels: Labels
    var collector: Opts
    var ingester: Opts
    var storage: Storage
    var ingress: Ingress
    var ui: Node

    ghost function Value(): Instance
      reads this
    {
      Instance(name, ns, annotations, strategy, common, allInOneLabels, queryLabels, collector, ingester, storage,
          ingress, ui)
    }

    method NormalizeStorage()
      modifies this`storage
      ensures storage == NormalStorage(old(storage))
    {
      if storage.typ == "" { storage := storage.(typ := MEMORY); }
      var unknown := UnknownStorage(storage.typ);
      if unknown { storage := storage.(typ := MEMORY); }
      NormalizeJobs();
      NormalizeElasticsearch();
      if storage.rolloverSchedule == "" { storage := storage.(rolloverSchedule := "0 0 * * *"); }
      if storage.esName == "" { storage := storage.(esName := "elasticsearch"); }
    }

    /** normalizeSparkDependencies, normalizeIndexCleaner */
    method NormalizeJobs()
      modifies this`storage
      ensures var s := old(storage);
              storage == s.(depsEnabled := if AutoDependencies(s) then OrElse(s.depsEnabled, Some(true))
                  else s.depsEnabled,
                            depsSchedule := OrText(s.depsSchedule, "55 23 * * *"),
                            cleanerEnabled := if s.typ == ELASTICSEARCH then OrElse(s.cleanerEnabled, Some(true))
                                else s.cleanerEnabled,
                            cleanerSchedule := OrText(s.cleanerSchedule, "55 23 * * *"),
                            cleanerDays := OrElse(s.cleanerDays, Some(7)))
    {
      if storage.typ in {ELASTICSEARCH, CASSANDRA} && storage.depsEnabled.None? && !ShouldInject(storage)
          && TlsNotEnabled(storage.options) {
        storage := storage.(depsEnabled := Some(true));
      }
      if storage.depsSchedule == "" { storage := storage.(depsSchedule := "55 23 * * *"); }
      if storage.typ == ELASTICSEARCH && storage.cleanerEnabled.None? {
        storage := storage.(cleanerEnabled := Some(true));
      }
      if storage.cleanerSchedule == "" { storage := storage.(cleanerSchedule := "55 23 * * *"); }
      if storage.cleanerDays.None? { storage := storage.(cleanerDays := Some(7)); }
    }

    method NormalizeElasticsearch()
      modifies this`storage
      ensures var s := old(storage);
              var nodes := if s.esNodes == 0 then 3 else s.esNodes;
              storage == s.(esNodes := nodes,
                            esRedundancy := OrText(s.esRedundancy, if nodes == 1 then "ZeroRedundancy"
                                else "SingleRedundancy"),
                            esResources := OrElse(s.esResources, Some(ES_RESOURCES)))
    {
      if storage.esNodes == 0 { storage := storage.(esNodes := 3); }
      if storage.esRedundancy == "" {
        if storage.esNodes == 1 {
          storage := storage.(esRedundancy := "ZeroRedundancy");
        } else {
          storage := storage.(esRedundancy := "SingleRedundancy");
        }
      }
      if storage.esResources.None? { storage := storage.(esResources := Some(ES_RESOURCES)); }
    }

    /** The strategy may change again once the storage type is known. */
    method NormalizeStrategy()
      modifies this`strategy
      ensures strategy == NormalStrategy(old(strategy), storage.typ)
    {
      if strategy != PRODUCTION && strategy != STREAMING { strategy := ALL_IN_ONE; }
      if !Distributed(storage.typ) && strategy != ALL_IN_ONE { strategy := ALL_IN_ONE; }
    }

    method NormalizeIngress(env: Env)
      modifies this`ingress
      ensures ingress == NormalIngress(env, ns, old(ingress))
    {
      if env.openShift && ingress.security != NO_SECURITY {
        ingress := ingress.(security := OAUTH_PROXY);
      } else {
        ingress := ingress.(security := NO_SECURITY);
      }
      if env.openShift && ingress.security == OAUTH_PROXY && ingress.sar.None? {
        ingress := ingress.(sar := Some(DefaultSar(ns)));
      }
    }

    /** A name, and no reserved labels in three of the label maps. */
    method NormalizeMeta()
      modifies this`name, this`common, this`allInOneLabels, this`queryLabels
      ensures name == OrText(old(name), "my-jaeger")
      ensures common == old(common).(labels := Stripped(old(common).labels))
      ensures allInOneLabels == Stripped(old(allInOneLabels)) && queryLabels == Stripped(old(queryLabels))
    {
      if name == "" { name := "my-jaeger"; }
      var labels := ReservedLabelsRemoved(common.labels);
      common := common.(labels := labels);
      allInOneLabels := ReservedLabelsRemoved(allInOneLabels);
      queryLabels := ReservedLabelsRemoved(queryLabels);
    }

    method Normalize(env: Env) returns (ok: bool)
      modifies this
      ensures ok <==> Normalised(env, old(Value())).Some?
      ensures ok ==> Normalised(env, old(Value())) == Some(Value())
    {
      Prepare(env);
      var r := NormalizeUI(WishesFor(env, storage, ingress), storage.options, ui);
      ok := r.Some?;
      if ok { ui := r.value; }
    }

    /** All but the UI options. */
    method Prepare(env: Env)
      modifies this
      ensures Value() == Prepared(env, old(Value()))
    {
      NormalizeMeta();
      NormalizeStorage();
      NormalizeStrategy();
      NormalizeIngress(env);
    }

    method AutoProvisionKafka(k: Kafka)
      modifies this`annotations, this`collector, this`ingester, this`common
      ensures annotations == old(annotations)[MARK := "true"] && common == Merged([k.spec, old(common)])
      ensures collector == Reparse(old(collector) + k.producer) && ingester == Reparse(old(ingester) + k.consumer)
    {
      annotations := annotations[MARK := "true"];
      collector := RoundTrip(collector + k.producer);
      ingester := RoundTrip(ingester + k.consumer);
      common := Merge([k.spec, common]);
    }

    /** cassandraDeps */
    method CassandraDefaults()
      requires storage.typ == CASSANDRA
      modifies this`storage
      ensures storage == WithSchema(old(storage))
    {
      var schema := storage.schema;
      if schema.enabled.None? { schema := schema.(enabled := Some(true)); }
      if schema.enabled.value {
        if schema.datacenter == "" { schema := schema.(datacenter := "test"); }
        if schema.mode == "" { schema := schema.(mode := "prod"); }
      }
      storage := storage.(schema := schema);
    }

    /** newStreamingStrategy, up to the decision about Kafka. */
    method BuildStreaming(k: Kafka) returns (provisions: bool)
      modifies this`annotations, this`collector, this`ingester, this`common
      ensures provisions == Provisions(old(Value()))
      ensures Value() == if provisions then Provisioned(old(Value()), k) else old(Value())
    {
      provisions := (PRODUCER_BROKERS !in collector && CONSUMER_BROKERS !in ingester) || Marked(annotations);
      if provisions { AutoProvisionKafka(k); }
    }

    /** What the constructors of the strategies change, one of which is called. */
    method Build(k: Kafka) returns (branch: Branch)
      modifies this
      ensures Value() == Built(old(Value()), k) && branch == BranchOf(old(Value()))
    {
      branch := BuildBranch(k);
      if storage.typ == CASSANDRA { CassandraDefaults(); }
    }

    method BuildBranch(k: Kafka) returns (branch: Branch)
      modifies this`annotations, this`collector, this`ingester, this`common
      ensures branch == BranchOf(old(Value()))
      ensures Value() == if branch == Streaming(true) then Provisioned(old(Value()), k) else old(Value())
    {
      if strategy == ALL_IN_ONE {
        branch := AllInOne;
      } else if strategy == STREAMING {
        var provisions := BuildStreaming(k);
        branch := Streaming(provisions);
      } else {
        branch := Production;
      }
    }

    method For(env: Env) returns (branch: Option<Branch>)
      modifies this
      ensures branch.Some? <==> Chosen(env, old(Value())).Some?
      ensures branch.Some? ==> Chosen(env, old(Value())) == Some((Value(), branch.value))
      ensures branch.Some? ==> ForFits(env, old(Value()), Value(), branch.value)
      ensures branch.None? <==> ForFails(env, old(Value()))
    {
      ghost var was := Value();
      ChosenSays(env, was);
      if strategy == DEPRECATED_ALL_IN_ONE { strategy := ALL_IN_ONE; }
      SameStrategy(env, was, Value());
      var ok := Normalize(env);
      if !ok { return None; }
      var b := Build(KafkaFor(name, ns));
      branch := Some(b);
    }
  }
}
