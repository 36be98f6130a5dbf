/**
 One application of a strategy to the cluster (pkg/controller/jaeger: apply in
 jaeger_controller.go, dependencies.go, deployment.go), where any call may fail and a failed
 write may still have taken effect.
 */
module Reconciler {
  import opened Text
  import opened Diff
  import opened Inventories
  import opened Convergence
  import opened DeploymentLaws

  // --- Polling -----------------------------------------------------------------------------

  /** What one Get of a poll brings: not found, another error, or the object's status. */
  datatype Reply<T> = Missing | Broken | Got(status: T)

  datatype PollResult<T> = Done(status: T) | Removed | Errored | TimedOut

  /** The reply `i` ends the poll neither way: not there yet, or there and not ready. */
  ghost predicate Waits<T>(done: T -> bool, replies: seq<Reply<T>>, i: nat)
    requires i < |replies|
  {
    match replies[i]
    case Missing => forall j :: 0 <= j < i ==> !replies[j].Got?
    case Broken => false
    case Got(status) => !done(status)
  }

  ghost predicate AllWait<T>(done: T -> bool, replies: seq<Reply<T>>, n: nat)
    requires n <= |replies|
  {
    forall i :: 0 <= i < n ==> Waits(done, replies, i)
  }

  /** The reply `i` is the first that does not wait. */
  ghost predicate EndsAt<T>(done: T -> bool, replies: seq<Reply<T>>, i: nat) {
    i < |replies| && AllWait(done, replies, i) && !Waits(done, replies, i)
  }

  lemma EndsOnce<T>(done: T -> bool, replies: seq<Reply<T>>, i: nat, j: nat)
    requires EndsAt(done, replies, i) && EndsAt(done, replies, j)
    ensures i == j
  {
  }

  lemma EndsOnlyAt<T>(done: T -> bool, replies: seq<Reply<T>>, i: nat)
    requires EndsAt(done, replies, i)
    ensures forall j: nat :: EndsAt(done, replies, j) ==> j == i
  {
    forall j: nat | EndsAt(done, replies, j) ensures j == i { EndsOnce(done, replies, i, j); }
  }

  /**
   The closure polled by waitForStability and handleDependency, until the replies run out: the
   first reply that does not wait decides.
   */
  method Poll<T>(done: T -> bool, replies: seq<Reply<T>>) returns (r: PollResult<T>)
    ensures r.Done? <==> exists i: nat :: EndsAt(done, replies, i) && replies[i].Got?
    ensures r.Done? ==> exists i: nat :: EndsAt(done, replies, i) && replies[i] == Got(r.status)
    ensures r == Removed <==> exists i: nat :: EndsAt(done, replies, i) && replies[i].Missing?
    ensures r == Errored <==> exists i: nat :: EndsAt(done, replies, i) && replies[i].Broken?
    ensures r == TimedOut <==> AllWait(done, replies, |replies|)
  {
    var seen := false;
    for n := 0 to |replies|
      invariant AllWait(done, replies, n)
      invariant seen <==> exists j :: 0 <= j < n && replies[j].Got?
    {
      match replies[n]
      case Missing =>
        if seen {
          EndsOnlyAt(done, replies, n);
          return Removed;
        }
      case Broken =>
        EndsOnlyAt(done, replies, n);
        return Errored;
      case Got(status) =>
        seen := true;
        if done(status) {
          EndsOnlyAt(done, replies, n);
          return Done(status);
        }
    }
    return TimedOut;
  }

  datatype JobStatus = JobStatus(succeeded: int)
  datatype DeploymentStatus = DeploymentStatus(ready: int, replicas: int)

  predicate HasSucceeded(s: JobStatus) { s.succeeded == 1 }
  predicate IsStable(s: DeploymentStatus) { s.ready == s.replicas }

  // --- Scripts and what happened of them ---------------------------------------------------

  /** What an application sets out to do, in order. */
  datatype Task = AllOf(kind: string) | Job(job: string) | Put(write: Write<Deployment>) | Await(key: string)

  /** What happened: effects, and observations with the status that was seen. */
  datatype Event =
    | Applied(kind: string)
    | Succeeded(job: string, successes: int)
    | Wrote(write: Write<Deployment>)
    | Stable(key: string, ready: int, replicas: int)

  /** The event carries out `t`; a wait ends with the status it waited for. */
  predicate Does(e: Event, t: Task) {
    match t
    case AllOf(kind) => e == Applied(kind)
    case Job(job) => e == Succeeded(job, 1)
    case Put(w) => e == Wrote(w)
    case Await(key) => e.Stable? && e.key == key && e.ready == e.replicas
  }

  /** The events carry out the first tasks, one each. */
  ghost predicate Follows(es: seq<Event>, ts: seq<Task>) {
    |es| <= |ts| && forall i :: 0 <= i < |es| ==> Does(es[i], ts[i])
  }

  lemma FollowsMore(es: seq<Event>, ts: seq<Task>, more: seq<Task>)
    requires Follows(es, ts)
    ensures Follows(es, ts + more)
  {
  }

  lemma FollowsBoth(es: seq<Event>, ts: seq<Task>, fs: seq<Event>, us: seq<Task>)
    requires Follows(es, ts) && |es| == |ts| && Follows(fs, us)
    ensures Follows(es + fs, ts + us)
  {
  }

  lemma FollowsOne(es: seq<Event>, ts: seq<Task>, e: Event)
    requires Follows(es, ts) && |es| < |ts| && Does(e, ts[|es|])
    ensures Follows(es + [e], ts)
  {
  }

  function Puts(ws: seq<Write<Deployment>>): seq<Task> { seq(|ws|, i requires 0 <= i < |ws| => Put(ws[i])) }
  function Awaits(s: seq<Deployment>): seq<Task> { seq(|s|, i requires 0 <= i < |s| => Await(DeploymentKey(s[i]))) }
  function Jobs(jobs: seq<string>): seq<Task> { seq(|jobs|, i requires 0 <= i < |jobs| => Job(jobs[i])) }
  function Kinds(kinds: seq<string>): seq<Task> { seq(|kinds|, i requires 0 <= i < |kinds| => AllOf(kinds[i])) }

  // --- A pass over deployments -------------------------------------------------------------

  function Script(inv: Inventory<Deployment>): seq<Task> {
    Puts(Creates(inv.create) + Updates(inv.update)) + Awaits(inv.create + inv.update) + Puts(Deletes(inv.delete))
  }

  /** How many of the writes are done after the first `m` events, when `k` of them precede the `k` waits. */
  function Written(k: nat, m: nat): nat { if m <= k then m else if m <= 2 * k then k else m - k }

  /** The script holds the writes in their order, with `k` waits after the first `k` of them. */
  ghost predicate Performs(script: seq<Task>, ws: seq<Write<Deployment>>, k: nat) {
    && k <= |ws| && |script| == |ws| + k
    && forall m :: 0 <= m < |script| ==> if k <= m < 2 * k then script[m].Await?
        else script[m] == Put(ws[Written(k, m)])
  }

  lemma ScriptPerforms(inv: Inventory<Deployment>)
    ensures var made := inv.create + inv.update;
            && Performs(Script(inv), Writes(inv), |made|)
            && forall i :: 0 <= i < |made| ==> Script(inv)[|made| + i] == Await(DeploymentKey(made[i]))
  {
    var made, script, ws := inv.create + inv.update, Script(inv), Writes(inv);
    forall m | 0 <= m < |script|
      ensures if |made| <= m < 2 * |made| then script[m].Await? else script[m] == Put(ws[Written(|made|, m)])
    {
      ScriptAt(inv, m);
    }
  }

  lemma ScriptAt(inv: Inventory<Deployment>, m: nat)
    requires m < |Script(inv)|
    ensures var k := |inv.create + inv.update|;
            |Writes(inv)| == k + |inv.delete| && |Script(inv)| == 2 * k + |inv.delete|
            && if k <= m < 2 * k then Script(inv)[m].Await? else Script(inv)[m] == Put(Writes(inv)[Written(k, m)])
  {
  }

  /** A course of events: the script, its writes, and where it started. */
  datatype Course = Course(script: seq<Task>, ws: seq<Write<Deployment>>, k: nat, start: seq<Event>,
      objects: Store<Deployment>)

  /** The log and the cluster after the events `es` of a course. */
  ghost predicate Reached(c: Course, es: seq<Event>, log: seq<Event>, now: Store<Deployment>) {
    && Performs(c.script, c.ws, c.k) && Follows(es, c.script) && log == c.start + es
    && Exec(DeploymentKey, c.objects, c.ws[..Written(c.k, |es|)]) == Some(now)
  }

  function CourseOf(inv: Inventory<Deployment>, start: seq<Event>, objects: Store<Deployment>): Course {
    Course(Script(inv), Writes(inv), |inv.create + inv.update|, start, objects)
  }

  lemma AdvanceWrite(c: Course, es: seq<Event>, log: seq<Event>, now: Store<Deployment>, w: Write<Deployment>,
      next: Store<Deployment>)
    requires Reached(c, es, log, now) && |es| < |c.script| && c.script[|es|] == Put(w)
    requires Exec1(DeploymentKey, now, w) == Some(next)
    ensures Reached(c, es + [Wrote(w)], log + [Wrote(w)], next)
  {
    var n := Written(c.k, |es|);
    assert Written(c.k, |es| + 1) == n + 1;
    assert c.ws[..n + 1][..n] == c.ws[..n];
    FollowsOne(es, c.script, Wrote(w));
  }

  lemma AdvanceWait(c: Course, es: seq<Event>, log: seq<Event>, now: Store<Deployment>, e: Event)
    requires Reached(c, es, log, now) && |es| < |c.script| && c.script[|es|].Await? && Does(e, c.script[|es|])
    ensures Reached(c, es + [e], log + [e], now)
  {
    assert c.k <= |es| < 2 * c.k;
    FollowsOne(es, c.script, e);
  }

  /** The writes among the events. */
  function Effects(es: seq<Event>): seq<Write<Deployment>> {
    if es == [] then []
    else Effects(es[..|es| - 1]) + (if es[|es| - 1].Wrote? then [es[|es| - 1].write] else [])
  }

  lemma {:induction false} NoEffects(es: seq<Event>)
    requires forall e :: e in es ==> !e.Wrote?
    ensures Effects(es) == []
  {
    if es != [] { NoEffects(es[..|es| - 1]); }
  }

  lemma {:induction false} EffectsConcat(a: seq<Event>, b: seq<Event>)
    ensures Effects(a + b) == Effects(a) + Effects(b)
  {
    if b == [] {
      assert a + b == a;
    } else {
      assert (a + b)[..|a + b| - 1] == a + b[..|b| - 1];
      EffectsConcat(a, b[..|b| - 1]);
    }
  }

  lemma {:induction false} EffectsOf(script: seq<Task>, ws: seq<Write<Deployment>>, k: nat, es: seq<Event>)
    requires Performs(script, ws, k) && Follows(es, script)
    ensures Written(k, |es|) <= |ws| && Effects(es) == ws[..Written(k, |es|)]
  {
    if es != [] {
      var m := |es| - 1;
      EffectsOf(script, ws, k, es[..m]);
      assert Does(es[m], script[m]);
    }
  }

  // --- The whole application ---------------------------------------------------------------

  /** What autodetection found, fixed for a run. */
  datatype Platform = Platform(esOperator: bool, kafkaOperator: bool, openShift: bool)

  /** The kinds applied before the dependency jobs, before the deployments, and after them. */
  datatype Phases = Phases(before: seq<string>, between: seq<string>, after: seq<string>)

  function PhasesOf(p: Platform): Phases {
    Phases(
      ["upgrades", "secrets"] + (if p.esOperator then ["elasticsearches"] else [])
        + (if p.kafkaOperator then ["kafkas", "kafkausers"] else []) + ["accounts"],
      ["clusterrolebindings", "configmaps", "cronjobs", "services"],
      [if p.openShift then "routes" else "ingresses", "horizontalpodautoscalers", "daemonsets"])
  }

  /** What precedes the deployments. */
  function Prelude(p: Phases, jobs: seq<string>): seq<Task> { Kinds(p.before) + Jobs(jobs) + Kinds(p.between) }

  function Whole(p: Phases, jobs: seq<string>, inv: Inventory<Deployment>): seq<Task> {
    Prelude(p, jobs) + Script(inv) + Kinds(p.after)
  }

  /** How far an application got: no stage starts before the one before it is complete. */
  ghost predicate Staged(p: Phases, jobs: seq<string>, inv: Inventory<Deployment>, a: seq<Event>, b: seq<Event>,
      c: seq<Event>) {
    && Follows(a, Prelude(p, jobs)) && Follows(b, Script(inv)) && Follows(c, Kinds(p.after))
    && (b != [] ==> |a| == |Prelude(p, jobs)|)
    && (c != [] ==> |a| == |Prelude(p, jobs)| && |b| == |Script(inv)|)
  }

  /** So the events of the stages together carry out the first tasks of the whole; writes are in the second. */
  lemma StagesFollow(p: Phases, jobs: seq<string>, inv: Inventory<Deployment>, a: seq<Event>, b: seq<Event>,
      c: seq<Event>)
    requires Staged(p, jobs, inv, a, b, c)
    ensures Follows(a + b + c, Whole(p, jobs, inv))
    ensures (exists e :: e in a + b + c && e.Wrote?) ==> b != []
    ensures c != [] ==> |a + b + c| > |Prelude(p, jobs)| + |Script(inv)|
  {
    var x, y, z := Prelude(p, jobs), Script(inv), Kinds(p.after);
    if c != [] {
      FollowsBoth(a, x, b, y);
      FollowsBoth(a + b, x + y, c, z);
    } else {
      assert a + b + c == a + b;
      if b != [] { FollowsBoth(a, x, b, y); } else { assert a + b == a; FollowsMore(a, x, y); }
      FollowsMore(a + b, x + y, z);
    }
    if b == [] {
      NoWrites(a, p, jobs);
      NoWritesAfter(c, p.after);
    }
  }

  lemma NoWrites(a: seq<Event>, p: Phases, jobs: seq<string>)
    requires Follows(a, Prelude(p, jobs))
    ensures forall e :: e in a ==> !e.Wrote?
  {
    forall e | e in a ensures !e.Wrote? {
      var i :| 0 <= i < |a| && a[i] == e;
      assert Does(a[i], Prelude(p, jobs)[i]) && !Prelude(p, jobs)[i].Put?;
    }
  }

  lemma NoWritesAfter(c: seq<Event>, kinds: seq<string>)
    requires Follows(c, Kinds(kinds))
    ensures forall e :: e in c ==> !e.Wrote?
  {
    forall e | e in c ensures !e.Wrote? {
      var i :| 0 <= i < |c| && c[i] == e;
      assert Does(c[i], Kinds(kinds)[i]);
    }
  }

  /** Only the second stage writes deployments. */
  lemma StagedEffects(p: Phases, jobs: seq<string>, inv: Inventory<Deployment>, a: seq<Event>, b: seq<Event>,
      c: seq<Event>)
    requires Staged(p, jobs, inv, a, b, c)
    ensures Effects(a + b + c) == Effects(b)
  {
    NoWrites(a, p, jobs);
    NoWritesAfter(c, p.after);
    NoEffects(a);
    NoEffects(c);
    EffectsConcat(a, b);
    EffectsConcat(a + b, c);
  }

  /** Every job was seen with one success before the event `i`. */
  ghost predicate JobsBefore(es: seq<Event>, jobs: seq<string>, i: nat) {
    forall job :: job in jobs ==> exists j :: 0 <= j < i && j < |es| && es[j] == Succeeded(job, 1)
  }

  /** The deployment was written, and then seen with as many ready replicas as it has, before the event `i`. */
  ghost predicate StableBefore(es: seq<Event>, d: Deployment, i: nat) {
    exists w, s :: 0 <= w < s < i && s < |es| && es[w] in {Wrote(Create(d)), Wrote(Update(d))}
                && es[s].Stable? && es[s].key == DeploymentKey(d) && es[s].ready == es[s].replicas
  }

  /** The two ordering rules of an application, as a property of what happened. */
  ghost predicate Ordered(es: seq<Event>, jobs: seq<string>, inv: Inventory<Deployment>) {
    && (forall i :: 0 <= i < |es| && es[i].Wrote? ==> JobsBefore(es, jobs, i))
    && (forall i :: 0 <= i < |es| && es[i].Wrote? && es[i].write.Delete? ==>
          forall d :: d in inv.create + inv.update ==> StableBefore(es, d, i))
  }

  lemma WholeAt(p: Phases, jobs: seq<string>, inv: Inventory<Deployment>, i: nat)
    requires i < |Whole(p, jobs, inv)|
    ensures var n := |Prelude(p, jobs)|;
            && (i < n ==> Whole(p, jobs, inv)[i] == Prelude(p, jobs)[i])
            && (n <= i < n + |Script(inv)| ==> Whole(p, jobs, inv)[i] == Script(inv)[i - n])
            && (Whole(p, jobs, inv)[i].Put? ==> n <= i < n + |Script(inv)|)
  {
    var n := |Prelude(p, jobs)|;
    assert i < n ==> Whole(p, jobs, inv)[i] == Prelude(p, jobs)[i] && !Prelude(p, jobs)[i].Put?;
    assert i >= n + |Script(inv)| ==> Whole(p, jobs, inv)[i] == Kinds(p.after)[i - n - |Script(inv)|];
  }

  lemma JobsFirst(p: Phases, jobs: seq<string>, inv: Inventory<Deployment>, es: seq<Event>, i: nat)
    requires Follows(es, Whole(p, jobs, inv)) && i < |es| && es[i].Wrote?
    ensures JobsBefore(es, jobs, i)
  {
    WholeAt(p, jobs, inv, i);
    forall job | job in jobs ensures exists j :: 0 <= j < i && j < |es| && es[j] == Succeeded(job, 1) {
      var q :| 0 <= q < |jobs| && jobs[q] == job;
      var j := |p.before| + q;
      WholeAt(p, jobs, inv, j);
      assert Prelude(p, jobs)[j] == Job(job);
      assert Does(es[j], Whole(p, jobs, inv)[j]);
    }
  }

  lemma StableFirst(p: Phases, jobs: seq<string>, inv: Inventory<Deployment>, es: seq<Event>, i: nat, d: Deployment)
    requires Follows(es, Whole(p, jobs, inv)) && i < |es| && es[i].Wrote? && es[i].write.Delete?
    requires d in inv.create + inv.update
    ensures StableBefore(es, d, i)
  {
    var made, n := inv.create + inv.update, |Prelude(p, jobs)|;
    var q :| 0 <= q < |made| && made[q] == d;
    WholeAt(p, jobs, inv, i);
    DeletesLast(inv, i - n);
    MadeAt(inv, q);
    WholeAt(p, jobs, inv, n + q);
    WholeAt(p, jobs, inv, n + |made| + q);
    var w, s := n + q, n + |made| + q;
    assert Does(es[w], Whole(p, jobs, inv)[w]) && Does(es[s], Whole(p, jobs, inv)[s]);
  }

  lemma DeletesLast(inv: Inventory<Deployment>, i: nat)
    requires i < |Script(inv)| && Script(inv)[i].Put? && Script(inv)[i].write.Delete?
    ensures i >= 2 * |inv.create + inv.update|
  {
  }

  lemma MadeAt(inv: Inventory<Deployment>, q: nat)
    requires q < |inv.create + inv.update|
    ensures var made := inv.create + inv.update;
            && |Script(inv)| >= 2 * |made|
            && Script(inv)[q] in {Put(Create(made[q])), Put(Update(made[q]))}
            && Script(inv)[|made| + q] == Await(DeploymentKey(made[q]))
  {
  }

  /** Wherever an application stops, what happened up to there is in order. */
  lemma FollowsIsOrdered(p: Phases, jobs: seq<string>, inv: Inventory<Deployment>, es: seq<Event>)
    requires Follows(es, Whole(p, jobs, inv))
    ensures Ordered(es, jobs, inv)
  {
    forall i | 0 <= i < |es| && es[i].Wrote? ensures JobsBefore(es, jobs, i) { JobsFirst(p, jobs, inv, es, i); }
    forall i, d | 0 <= i < |es| && es[i].Wrote? && es[i].write.Delete? && d in inv.create + inv.update
      ensures StableBefore(es, d, i)
    {
      StableFirst(p, jobs, inv, es, i, d);
    }
  }

  // --- Where every kind has its place ------------------------------------------------------

  /** The kinds that are applied before the deployments: some only where their operator is. */
  ghost predicate Needed(p: Platform, kind: string) {
    || kind in {"upgrades", "secrets", "accounts", "clusterrolebindings", "configmaps", "cronjobs", "services"}
    || (kind == "elasticsearches" && p.esOperator)
    || (kind in {"kafkas", "kafkausers"} && p.kafkaOperator)
  }

  /** The kind that exposes the query service: routes on OpenShift, ingresses elsewhere. */
  ghost predicate Exposes(p: Platform, kind: string) { kind == if p.openShift then "routes" else "ingresses" }

  /** The order of an application; the jobs have rank 6 and the deployments rank 11. */
  function Rank(kind: string): nat {
    if kind == "upgrades" then 0 else if kind == "secrets" then 1 else if kind == "elasticsearches" then 2
    else if kind == "kafkas" then 3 else if kind == "kafkausers" then 4 else if kind == "accounts" then 5
    else if kind == "clusterrolebindings" then 7 else if kind == "configmaps" then 8 else if kind == "cronjobs" then 9
    else if kind == "services" then 10 else if kind == "routes" || kind == "ingresses" then 12
    else if kind == "horizontalpodautoscalers" then 13 else 14
  }

  function RankOf(e: Event): nat {
    match e
    case Applied(kind) => Rank(kind)
    case Succeeded(_, _) => 6
    case Wrote(_) => 11
    case Stable(_, _, _) => 11
  }

  /** Nothing happens out of turn, no kind twice, and nothing before all that precedes it. */
  ghost predicate Placed(es: seq<Event>, p: Platform) {
    && (forall i, j :: 0 <= i < j < |es| ==>
          RankOf(es[i]) <= RankOf(es[j]) && (es[i].Applied? && es[j].Applied? ==> RankOf(es[i]) < RankOf(es[j])))
    && (forall k :: Applied(k) in es ==>
          Needed(p, k) || Exposes(p, k) || k in {"horizontalpodautoscalers", "daemonsets"})
    && forall i, k :: 0 <= i < |es| && (Needed(p, k) || Exposes(p, k)) && Rank(k) < RankOf(es[i]) ==>
        Applied(k) in es[..i]
  }

  /** Everything was applied; autoscalers and daemon sets exactly where the autoscalers did not fail. */
  ghost predicate Complete(es: seq<Event>, p: Platform, answers: Answers) {
    && (forall k :: Needed(p, k) || Exposes(p, k) ==> Applied(k) in es)
    && (Applied("horizontalpodautoscalers") in es <==> answers.kind("horizontalpodautoscalers"))
    && (Applied("daemonsets") in es <==> answers.kind("horizontalpodautoscalers"))
  }

  /** All that precedes the deployments succeeds. */
  ghost predicate Prepared(answers: Answers, p: Platform, jobs: seq<string>) {
    (forall k :: Needed(p, k) ==> answers.kind(k)) && JobsSucceed(answers, jobs)
  }

  /** So does what follows them, as far as it has to. */
  ghost predicate Finished(answers: Answers, p: Platform) {
    && (forall k :: Exposes(p, k) ==> answers.kind(k))
    && (answers.kind("horizontalpodautoscalers") ==> answers.kind("daemonsets"))
  }

  function TaskRank(t: Task): nat {
    match t
    case AllOf(kind) => Rank(kind)
    case Job(_) => 6
    case Put(_) => 11
    case Await(_) => 11
  }

  /** The ranks of a list of kinds lie between the bounds and ascend. */
  ghost predicate Ascends(kinds: seq<string>, low: nat, high: nat) {
    && (forall i :: 0 <= i < |kinds| ==> low <= Rank(kinds[i]) <= high)
    && forall i, j :: 0 <= i < j < |kinds| ==> Rank(kinds[i]) < Rank(kinds[j])
  }

  lemma PhasesAscend(p: Platform)
    ensures Ascends(PhasesOf(p).before, 0, 5) && Ascends(PhasesOf(p).between, 7, 10)
              && Ascends(PhasesOf(p).after, 12, 14)
  {
    BeforeAscends(p.esOperator, p.kafkaOperator);
    BetweenAscends();
    AfterAscends(p);
  }

  lemma EarlyRanks()
    ensures Rank("upgrades") == 0 && Rank("secrets") == 1 && Rank("elasticsearches") == 2
    ensures Rank("kafkas") == 3 && Rank("kafkausers") == 4 && Rank("accounts") == 5
  {
  }

  lemma BeforeAscends(es: bool, kafka: bool)
    ensures Ascends(["upgrades", "secrets"] + (if es then ["elasticsearches"] else [])
                    + (if kafka then ["kafkas", "kafkausers"] else []) + ["accounts"], 0, 5)
  {
    EarlyRanks();
  }

  lemma BetweenAscends()
    ensures Ascends(["clusterrolebindings", "configmaps", "cronjobs", "services"], 7, 10)
  {
    assert Rank("clusterrolebindings") == 7 && Rank("configmaps") == 8;
    assert Rank("cronjobs") == 9 && Rank("services") == 10;
  }

  lemma AfterAscends(p: Platform)
    ensures Ascends(PhasesOf(p).after, 12, 14)
  {
    ExposureRank(p);
  }

  lemma PhasesHold(p: Platform)
    ensures forall k :: k in PhasesOf(p).before + PhasesOf(p).between <==> Needed(p, k)
    ensures forall k :: Exposes(p, k) <==> k == PhasesOf(p).after[0]
    ensures PhasesOf(p).after[1..] == ["horizontalpodautoscalers", "daemonsets"]
  {
  }

  lemma PreparedIs(answers: Answers, p: Platform, jobs: seq<string>)
    ensures var ps := PhasesOf(p);
            && (Prepared(answers, p, jobs) <==>
                  (forall k :: k in ps.before + ps.between ==> answers.kind(k)) && JobsSucceed(answers, jobs))
            && (Finished(answers, p) <==>
                  answers.kind(ps.after[0]) && (answers.kind(ps.after[1]) ==> answers.kind(ps.after[2])))
  {
    PhasesHold(p);
  }

  /** Where a task of the whole script has its place. */
  lemma TaskAt(p: Platform, jobs: seq<string>, inv: Inventory<Deployment>, i: nat)
    requires i < |Whole(PhasesOf(p), jobs, inv)|
    ensures var ps := PhasesOf(p);
            var x, y, z := |ps.before|, |ps.before| + |jobs|, |ps.before| + |jobs| + |ps.between|;
            var t := Whole(ps, jobs, inv)[i];
            && z == |Prelude(ps, jobs)|
            && (i < x ==> t == AllOf(ps.before[i])) && (x <= i < y ==> t.Job?)
            && (y <= i < z ==> t == AllOf(ps.between[i - y]))
            && (z <= i < z + |Script(inv)| ==> t.Put? || t.Await?)
            && (z + |Script(inv)| <= i ==> t == AllOf(ps.after[i - z - |Script(inv)|]))
  {
    WholeAt(PhasesOf(p), jobs, inv, i);
  }

  lemma WholeAscends(p: Platform, jobs: seq<string>, inv: Inventory<Deployment>, i: nat, j: nat)
    requires i < j < |Whole(PhasesOf(p), jobs, inv)|
    ensures var w := Whole(PhasesOf(p), jobs, inv);
            TaskRank(w[i]) <= TaskRank(w[j]) && (w[i].AllOf? && w[j].AllOf? ==> TaskRank(w[i]) < TaskRank(w[j]))
  {
    PhasesAscend(p);
    TaskAt(p, jobs, inv, i);
    TaskAt(p, jobs, inv, j);
  }

  lemma KindAt(p: Platform, jobs: seq<string>, inv: Inventory<Deployment>, k: string) returns (i: nat)
    requires Needed(p, k) || Exposes(p, k)
    ensures i < |Whole(PhasesOf(p), jobs, inv)| && Whole(PhasesOf(p), jobs, inv)[i] == AllOf(k)
    ensures i <= |Prelude(PhasesOf(p), jobs)| + |Script(inv)|
  {
    var ps := PhasesOf(p);
    PhasesHold(p);
    if k in ps.before {
      i :| 0 <= i < |ps.before| && ps.before[i] == k;
    } else if k in ps.between {
      var m :| 0 <= m < |ps.between| && ps.between[m] == k;
      i := |ps.before| + |jobs| + m;
    } else {
      i := |Prelude(ps, jobs)| + |Script(inv)|;
    }
    TaskAt(p, jobs, inv, i);
  }

  lemma FollowsIsPlaced(p: Platform, jobs: seq<string>, inv: Inventory<Deployment>, es: seq<Event>)
    requires Follows(es, Whole(PhasesOf(p), jobs, inv))
    ensures Placed(es, p)
  {
    var w := Whole(PhasesOf(p), jobs, inv);
    forall i, j | 0 <= i < j < |es|
      ensures RankOf(es[i]) <= RankOf(es[j]) && (es[i].Applied? && es[j].Applied? ==> RankOf(es[i]) < RankOf(es[j]))
    {
      WholeAscends(p, jobs, inv, i, j);
      assert Does(es[i], w[i]) && Does(es[j], w[j]);
    }
    forall k | Applied(k) in es
      ensures Needed(p, k) || Exposes(p, k) || k in {"horizontalpodautoscalers", "daemonsets"}
    {
      var i :| 0 <= i < |es| && es[i] == Applied(k);
      assert Does(es[i], w[i]);
      TaskAt(p, jobs, inv, i);
      PhasesHold(p);
      AfterIs(p);
    }
    forall i, k | 0 <= i < |es| && (Needed(p, k) || Exposes(p, k)) && Rank(k) < RankOf(es[i])
      ensures Applied(k) in es[..i]
    {
      var m := KindAt(p, jobs, inv, k);
      assert Does(es[i], w[i]);
      if i < m { WholeAscends(p, jobs, inv, i, m); }
      assert m < i && Does(es[m], w[m]) && es[..i][m] == Applied(k);
    }
  }

  lemma AfterIs(p: Platform)
    ensures var after := PhasesOf(p).after;
            |after| == 3 && after[1] == "horizontalpodautoscalers" && after[2] == "daemonsets"
  {
  }

  lemma LongIsComplete(p: Platform, jobs: seq<string>, inv: Inventory<Deployment>, es: seq<Event>, answers: Answers)
    requires Follows(es, Whole(PhasesOf(p), jobs, inv))
    requires |es| == |Prelude(PhasesOf(p), jobs)| + |Script(inv)|
                     + if answers.kind("horizontalpodautoscalers") then 3 else 1
    ensures Complete(es, p, answers)
  {
    var w, n := Whole(PhasesOf(p), jobs, inv), |Prelude(PhasesOf(p), jobs)| + |Script(inv)|;
    AfterIs(p);
    forall k | Needed(p, k) || Exposes(p, k) ensures Applied(k) in es {
      var m := KindAt(p, jobs, inv, k);
      assert Does(es[m], w[m]) && es[m] == Applied(k);
    }
    if answers.kind("horizontalpodautoscalers") {
      TaskAt(p, jobs, inv, n + 1);
      TaskAt(p, jobs, inv, n + 2);
      assert Does(es[n + 1], w[n + 1]) && Does(es[n + 2], w[n + 2]);
    } else {
      LateKindsAbsent(p, jobs, inv, es);
    }
  }

  lemma LateKindsAbsent(p: Platform, jobs: seq<string>, inv: Inventory<Deployment>, es: seq<Event>)
    requires Follows(es, Whole(PhasesOf(p), jobs, inv)) && |es| == |Prelude(PhasesOf(p), jobs)| + |Script(inv)| + 1
    ensures Applied("horizontalpodautoscalers") !in es && Applied("daemonsets") !in es
  {
    PhasesAscend(p);
    forall i | 0 <= i < |es| ensures RankOf(es[i]) <= 12 {
      TaskAt(p, jobs, inv, i);
      assert Does(es[i], Whole(PhasesOf(p), jobs, inv)[i]);
      ExposureRank(p);
    }
  }

  lemma ExposureRank(p: Platform)
    ensures Rank(PhasesOf(p).after[0]) == 12 && Rank("horizontalpodautoscalers") == 13 && Rank("daemonsets") == 14
  {
  }

  // --- The answers of the cluster ----------------------------------------------------------

  /** The answer to the creation of a job. */
  datatype Creation = Accepted | AlreadyExists | Refused

  /** What becomes of a write: refused or lost, in effect without an answer, or answered. */
  datatype Reception = Rejected | Unanswered | Answered

  /** How every call of an application ends: by kind, by job, by write, and by deployment waited for. */
  datatype Answers = Answers(
    kind: string -> bool, creation: nat -> Creation, job: nat -> seq<Reply<JobStatus>>, listed: bool,
    write: nat -> Reception, deployment: nat -> seq<Reply<DeploymentStatus>>)

  /** The poll ends with the status it waits for. */
  ghost predicate Seen<T>(done: T -> bool, replies: seq<Reply<T>>) {
    exists i: nat :: EndsAt(done, replies, i) && replies[i].Got?
  }

  /** The reply brings as many ready replicas as there are; none before does, fails, or loses what was there. */
  ghost predicate ReadyAt(replies: seq<Reply<DeploymentStatus>>, i: nat) {
    && i < |replies| && replies[i].Got? && replies[i].status.ready == replies[i].status.replicas
    && (forall j :: 0 <= j < i ==>
          !replies[j].Broken? && (replies[j].Got? ==> replies[j].status.ready != replies[j].status.replicas))
    && (forall j, k :: 0 <= k < j < i && replies[j].Missing? ==> replies[k].Missing?)
  }

  lemma StableSays(replies: seq<Reply<DeploymentStatus>>)
    ensures Seen(IsStable, replies) <==> exists i: nat :: ReadyAt(replies, i)
  {
    if i: nat :| EndsAt(IsStable, replies, i) && replies[i].Got? {
      forall j | 0 <= j < i
        ensures !replies[j].Broken? && (replies[j].Got? ==> replies[j].status.ready != replies[j].status.replicas)
        ensures replies[j].Missing? ==> forall k :: 0 <= k < j ==> !replies[k].Got?
      {
        assert Waits(IsStable, replies, j);
      }
      assert ReadyAt(replies, i);
    }
    if i: nat :| ReadyAt(replies, i) { assert EndsAt(IsStable, replies, i); }
  }

  /** The reply brings the one success of the job, none before does, fails, or loses the job. */
  ghost predicate SuccessAt(replies: seq<Reply<JobStatus>>, i: nat) {
    && i < |replies| && replies[i].Got? && replies[i].status.succeeded == 1
    && (forall j :: 0 <= j < i ==> !replies[j].Broken? && (replies[j].Got? ==> replies[j].status.succeeded != 1))
    && (forall j, k :: 0 <= k < j < i && replies[j].Missing? ==> replies[k].Missing?)
  }

  lemma SuccessSays(replies: seq<Reply<JobStatus>>)
    ensures Seen(HasSucceeded, replies) <==> exists i: nat :: SuccessAt(replies, i)
  {
    if i: nat :| EndsAt(HasSucceeded, replies, i) && replies[i].Got? {
      forall j | 0 <= j < i
        ensures !replies[j].Broken? && (replies[j].Got? ==> replies[j].status.succeeded != 1)
        ensures replies[j].Missing? ==> forall k :: 0 <= k < j ==> !replies[k].Got?
      {
        assert Waits(HasSucceeded, replies, j);
      }
      assert SuccessAt(replies, i);
    }
    if i: nat :| SuccessAt(replies, i) { assert EndsAt(HasSucceeded, replies, i); }
  }

  ghost predicate JobsSucceed(answers: Answers, jobs: seq<string>) {
    forall i: nat :: i < |jobs| ==> answers.creation(i) != Refused && Seen(HasSucceeded, answers.job(i))
  }

  /** The writes from the `n`th up to the `end`th are possible, and all are answered. */
  ghost predicate WritesSucceed(answers: Answers, objects: Store<Deployment>, ws: seq<Write<Deployment>>, n: nat,
      end: nat)
    requires n <= end <= |ws|
  {
    && (forall i: nat :: n <= i < end ==> answers.write(i) == Answered)
    && Exec(DeploymentKey, objects, ws[..end]).Some?
  }

  ghost predicate DeploymentsSucceed(answers: Answers, objects: Store<Deployment>, inv: Inventory<Deployment>) {
    && WritesSucceed(answers, objects, Writes(inv), 0, |Writes(inv)|)
    && forall i: nat :: i < |inv.create + inv.update| ==> Seen(IsStable, answers.deployment(i))
  }

  lemma ExecFailsOn(objects: Store<Deployment>, ws: seq<Write<Deployment>>, n: nat, end: nat)
    requires n <= end <= |ws| && Exec(DeploymentKey, objects, ws[..n]).None?
    ensures Exec(DeploymentKey, objects, ws[..end]).None?
  {
    assert ws[..end] == ws[..n] + ws[n..end];
    ExecConcat(DeploymentKey, objects, ws[..n], ws[n..end]);
  }

  lemma WriteFails(answers: Answers, objects: Store<Deployment>, ws: seq<Write<Deployment>>, n: nat, i: nat, end: nat)
    requires n <= i < end <= |ws|
    requires answers.write(i) != Answered || Exec(DeploymentKey, objects, ws[..i + 1]).None?
    ensures !WritesSucceed(answers, objects, ws, n, end)
  {
    if answers.write(i) == Answered { ExecFailsOn(objects, ws, i + 1, end); }
  }

  lemma FirstHalfFails(answers: Answers, objects: Store<Deployment>, ws: seq<Write<Deployment>>, k: nat)
    requires k <= |ws| && !WritesSucceed(answers, objects, ws, 0, k)
    ensures !WritesSucceed(answers, objects, ws, 0, |ws|)
  {
    if Exec(DeploymentKey, objects, ws[..k]).None? { ExecFailsOn(objects, ws, k, |ws|); }
  }

  lemma ExecOneMore(objects: Store<Deployment>, ws: seq<Write<Deployment>>, n: nat)
    requires n < |ws| && Exec(DeploymentKey, objects, ws[..n]).Some?
    ensures Exec(DeploymentKey, objects, ws[..n + 1])
              == Exec1(DeploymentKey, Exec(DeploymentKey, objects, ws[..n]).value, ws[n])
  {
    assert ws[..n + 1] == ws[..n] + [ws[n]];
    assert ws[..n + 1][..n] == ws[..n];
  }

  class Cluster {
    var deployments: Store<Deployment>
    ghost var log: seq<Event>

    constructor (objects: Store<Deployment>)
      ensures deployments == objects && log == []
    {
      deployments := objects;
      log := [];
    }

    /** One write. The server may refuse it, and its answer may get lost after it took effect. */
    method Issue(w: Write<Deployment>, reception: Reception) returns (ok: bool)
      modifies this
      ensures var r := Exec1(DeploymentKey, old(deployments), w);
              && (ok <==> r.Some? && reception == Answered)
              && (if r.Some? && reception != Rejected then deployments == r.value && log == old(log) + [Wrote(w)]
                  else deployments == old(deployments) && log == old(log))
    {
      var r := Exec1(DeploymentKey, deployments, w);
      if reception == Rejected || r.None? { return false; }
      deployments := r.value;
      log := log + [Wrote(w)];
      ok := reception == Answered;
    }

    /** Succeeds exactly when the deciding reply has as many ready replicas as it has, and logs that status. */
    method WaitForStability(d: Deployment, replies: seq<Reply<DeploymentStatus>>) returns (ok: bool)
      modifies this`log
      ensures ok <==> exists i: nat :: EndsAt(IsStable, replies, i) && replies[i].Got?
      ensures ok ==> exists i: nat ::
                EndsAt(IsStable, replies, i) && replies[i].Got?
                && log == old(log) + [Stable(DeploymentKey(d), replies[i].status.ready, replies[i].status.replicas)]
      ensures ok ==> Does(log[|log| - 1], Await(DeploymentKey(d)))
      ensures !ok ==> log == old(log)
    {
      var r := Poll(IsStable, replies);
      ok := r.Done?;
      if ok { log := log + [Stable(DeploymentKey(d), r.status.ready, r.status.replicas)]; }
    }

    /** The same for a job and its one success; a job that is there already is as good as a created one. */
    method HandleDependency(job: string, creation: Creation, replies: seq<Reply<JobStatus>>) returns (ok: bool)
      modifies this`log
      ensures ok <==> creation != Refused && exists i: nat :: EndsAt(HasSucceeded, replies, i) && replies[i].Got?
      ensures ok ==> exists i: nat ::
                EndsAt(HasSucceeded, replies, i) && replies[i].Got?
                && log == old(log) + [Succeeded(job, replies[i].status.succeeded)]
      ensures ok ==> Does(log[|log| - 1], Job(job))
      ensures !ok ==> log == old(log)
    {
      if creation == Refused { return false; }
      var r := Poll(HasSucceeded, replies);
      ok := r.Done?;
      if ok { log := log + [Succeeded(job, r.status.succeeded)]; }
    }

    method HandleDependencies(jobs: seq<string>, answers: Answers) returns (ok: bool, ghost es: seq<Event>)
      modifies this`log
      ensures log == old(log) + es && Follows(es, Jobs(jobs)) && (ok ==> |es| == |jobs|)
      ensures ok <==> JobsSucceed(answers, jobs)
    {
      es := [];
      for i := 0 to |jobs|
        invariant log == old(log) + es && Follows(es, Jobs(jobs)) && |es| == i
        invariant forall m: nat :: m < i ==> answers.creation(m) != Refused && Seen(HasSucceeded, answers.job(m))
      {
        ok := HandleDependency(jobs[i], answers.creation(i), answers.job(i));
        if !ok { return; }
        FollowsOne(es, Jobs(jobs), log[|log| - 1]);
        es := es + [log[|log| - 1]];
      }
      ok := true;
    }

    /** Any of the per-kind passes that are not modelled further, up to the first that fails. */
    method ApplyKinds(kinds: seq<string>, answers: Answers) returns (ok: bool, ghost es: seq<Event>)
      modifies this`log
      ensures log == old(log) + es && Follows(es, Kinds(kinds)) && (ok <==> |es| == |kinds|)
      ensures ok <==> forall k :: k in kinds ==> answers.kind(k)
    {
      es := [];
      for i := 0 to |kinds|
        invariant log == old(log) + es && Follows(es, Kinds(kinds)) && |es| == i
        invariant forall m :: 0 <= m < i ==> answers.kind(kinds[m])
      {
        if !answers.kind(kinds[i]) { return false, es; }
        FollowsOne(es, Kinds(kinds), Applied(kinds[i]));
        log := log + [Applied(kinds[i])];
        es := es + [Applied(kinds[i])];
      }
      ok := true;
    }

    /** The `i`th write, which is next in the course. */
    method IssueNext(ws: seq<Write<Deployment>>, i: nat, answers: Answers, ghost c: Course, ghost done: seq<Event>)
      returns (ok: bool, ghost es: seq<Event>)
      requires Reached(c, done, log, deployments) && c.ws == ws && i < |ws| && Written(c.k, |done|) == i
      requires |done| < |c.script| && c.script[|done|] == Put(ws[i])
      modifies this
      ensures Reached(c, es, log, deployments) && (ok ==> |es| == |done| + 1)
      ensures ok <==> answers.write(i) == Answered && Exec(DeploymentKey, c.objects, ws[..i + 1]).Some?
    {
      ghost var was, now := log, deployments;
      ExecOneMore(c.objects, ws, i);
      ok := Issue(ws[i], answers.write(i));
      es := done;
      if log != was {
        AdvanceWrite(c, es, was, now, ws[i], deployments);
        es := es + [Wrote(ws[i])];
      }
    }

    /** The writes from the `n`th up to the `end`th, until one fails. */
    method IssueAll(ws: seq<Write<Deployment>>, n: nat, end: nat, answers: Answers, ghost c: Course,
        ghost done: seq<Event>)
      returns (ok: bool, ghost es: seq<Event>)
      requires Reached(c, done, log, deployments) && c.ws == ws && n <= end <= |ws|
      requires (n == |done| == 0 && end == c.k) || (n == c.k && |done| == 2 * c.k)
      modifies this
      ensures Reached(c, es, log, deployments) && (ok ==> |es| == |done| + end - n)
      ensures ok <==> WritesSucceed(answers, c.objects, ws, n, end)
    {
      es := done;
      for i := n to end
        invariant |es| == |done| + i - n && Reached(c, es, log, deployments)
        invariant forall m: nat :: n <= m < i ==> answers.write(m) == Answered
      {
        ok, es := IssueNext(ws, i, answers, c, es);
        if !ok {
          WriteFails(answers, c.objects, ws, n, i, end);
          return;
        }
      }
      ok := true;
    }

    method WaitForAll(made: seq<Deployment>, answers: Answers, ghost c: Course, ghost done: seq<Event>)
      returns (ok: bool, ghost es: seq<Event>)
      requires Reached(c, done, log, deployments) && |done| == |made| == c.k
      requires forall i :: 0 <= i < |made| ==> c.script[c.k + i] == Await(DeploymentKey(made[i]))
      modifies this`log
      ensures Reached(c, es, log, deployments) && (ok ==> |es| == 2 * c.k)
      ensures ok <==> forall i: nat :: i < |made| ==> Seen(IsStable, answers.deployment(i))
    {
      ghost var now := deployments;
      es := done;
      for i := 0 to |made|
        invariant |es| == c.k + i && Reached(c, es, log, now)
        invariant forall m: nat :: m < i ==> Seen(IsStable, answers.deployment(m))
      {
        ghost var was := log;
        assert c.script[|es|] == Await(DeploymentKey(made[i]));
        ok := WaitForStability(made[i], answers.deployment(i));
        if !ok { return; }
        AdvanceWait(c, es, was, now, log[|log| - 1]);
        es := es + [log[|log| - 1]];
      }
      ok := true;
    }

    /** The writes and waits of applyDeployments. */
    method Execute(inv: Inventory<Deployment>, answers: Answers) returns (ok: bool, ghost es: seq<Event>)
      modifies this
      ensures Reached(CourseOf(inv, old(log), old(deployments)), es, log, deployments) && (ok ==> |es| == |Script(inv)|)
      ensures ok <==> DeploymentsSucceed(answers, old(deployments), inv)
    {
      var made := inv.create + inv.update;
      ghost var c := CourseOf(inv, log, deployments);
      ScriptPerforms(inv);
      assert Reached(c, [], log, deployments);
      ok, es := IssueAll(Writes(inv), 0, |made|, answers, c, []);
      if !ok {
        FirstHalfFails(answers, c.objects, Writes(inv), |made|);
        return;
      }
      ok, es := WaitForAll(made, answers, c, es);
      if !ok { return; }
      ok, es := IssueAll(Writes(inv), |made|, |Writes(inv)|, answers, c, es);
    }

    /**
     applyDeployments. Wherever it stops, its events carry out the first tasks of the inventory's
     script and the cluster is what the writes among them make of it. It succeeds exactly when
     the List, all writes and all waits do.
     */
    method ApplyDeployments(ns: string, selector: Labels, desired: seq<Deployment>, answers: Answers)
      returns (ok: bool, ghost inv: Inventory<Deployment>, ghost es: seq<Event>)
      requires Keyed(DeploymentKey, deployments)
      modifies this
      ensures IsInventory(DEPLOYMENTS, Selected(DeploymentIn(ns, selector), old(deployments)),
                ByKey(DeploymentKey, desired), inv)
      ensures Reached(CourseOf(inv, old(log), old(deployments)), es, log, deployments) && (ok ==> |es| == |Script(inv)|)
      ensures ok <==> answers.listed && DeploymentsSucceed(answers, old(deployments), inv)
      ensures !answers.listed ==> es == []
    {
      var inventory := Plan(ns, selector, desired);
      inv := inventory;
      if answers.listed { ok, es := Execute(inventory, answers); } else { ok, es := Unanswered(inventory); }
    }

    /** The List and the inventory drawn from it. */
    method Plan(ns: string, selector: Labels, desired: seq<Deployment>) returns (inv: Inventory<Deployment>)
      requires Keyed(DeploymentKey, deployments)
      ensures IsInventory(DEPLOYMENTS, Selected(DeploymentIn(ns, selector), deployments), ByKey(DeploymentKey, desired),
                inv)
    {
      var items := ListOf(DeploymentKey, Selected(DeploymentIn(ns, selector), deployments));
      inv := ForDeployments(items, desired);
    }

    /** The List failed: nothing happens. */
    method Unanswered(inv: Inventory<Deployment>) returns (ok: bool, ghost es: seq<Event>)
      ensures Reached(CourseOf(inv, log, deployments), es, log, deployments) && !ok && es == []
    {
      ScriptPerforms(inv);
      return false, [];
    }

    /** The part of apply before the deployments. */
    method ApplyPrelude(p: Phases, jobs: seq<string>, answers: Answers) returns (ok: bool, ghost es: seq<Event>)
      modifies this`log
      ensures log == old(log) + es && Follows(es, Prelude(p, jobs)) && (ok ==> |es| == |Prelude(p, jobs)|)
      ensures ok <==> (forall k :: k in p.before + p.between ==> answers.kind(k)) && JobsSucceed(answers, jobs)
    {
      ghost var a, b, c := Kinds(p.before), Jobs(jobs), Kinds(p.between);
      ghost var fs;
      ok, es := ApplyKinds(p.before, answers);
      FollowsMore(es, a, b);
      FollowsMore(es, a + b, c);
      if !ok { return; }
      ok, fs := HandleDependencies(jobs, answers);
      FollowsBoth(es, a, fs, b);
      es := es + fs;
      FollowsMore(es, a + b, c);
      if !ok { return; }
      ok, fs := ApplyKinds(p.between, answers);
      FollowsBoth(es, a + b, fs, c);
      es := es + fs;
    }

    /** The part of apply after the deployments, where a failure of the second kind is not an error. */
    method ApplyRest(kinds: seq<string>, answers: Answers) returns (ok: bool, ghost es: seq<Event>)
      requires |kinds| == 3
      modifies this`log
      ensures log == old(log) + es && Follows(es, Kinds(kinds))
      ensures ok <==> answers.kind(kinds[0]) && (answers.kind(kinds[1]) ==> answers.kind(kinds[2]))
      ensures ok ==> |es| == if answers.kind(kinds[1]) then 3 else 1
    {
      ghost var fs;
      ok, es := ApplyKinds(kinds[..1], answers);
      assert Kinds(kinds) == Kinds(kinds[..1]) + Kinds(kinds[1..2]) + Kinds(kinds[2..]);
      FollowsMore(es, Kinds(kinds[..1]), Kinds(kinds[1..2]) + Kinds(kinds[2..]));
      assert Kinds(kinds[..1]) + (Kinds(kinds[1..2]) + Kinds(kinds[2..])) == Kinds(kinds);
      assert kinds[..1] == [kinds[0]] && kinds[1..2] == [kinds[1]] && kinds[2..] == [kinds[2]];
      if !ok { return; }
      ok, fs := ApplyKinds(kinds[1..2], answers);
      FollowsBoth(es, Kinds(kinds[..1]), fs, Kinds(kinds[1..2]));
      es := es + fs;
      FollowsMore(es, Kinds(kinds[..1]) + Kinds(kinds[1..2]), Kinds(kinds[2..]));
      if !ok { return true, es; }
      ok, fs := ApplyKinds(kinds[2..], answers);
      FollowsBoth(es, Kinds(kinds[..1]) + Kinds(kinds[1..2]), fs, Kinds(kinds[2..]));
      es := es + fs;
    }

    method ApplyPhases(p: Phases, jobs: seq<string>, ns: string, selector: Labels, desired: seq<Deployment>,
        answers: Answers)
      returns (ok: bool, ghost inv: Inventory<Deployment>, ghost a: seq<Event>, ghost b: seq<Event>,
          ghost c: seq<Event>)
      requires |p.after| == 3 && Keyed(DeploymentKey, deployments)
      modifies this
      ensures log == old(log) + a + b + c && Staged(p, jobs, inv, a, b, c)
      ensures Exec(DeploymentKey, old(deployments), Effects(b)) == Some(deployments)
      ensures var prelude := (forall k :: k in p.before + p.between ==> answers.kind(k)) && JobsSucceed(answers, jobs);
              && (prelude ==> IsInventory(DEPLOYMENTS, Selected(DeploymentIn(ns, selector), old(deployments)),
                                          ByKey(DeploymentKey, desired), inv))
              && (!prelude || !answers.listed ==> b == [])
              && (ok <==> && prelude && answers.listed && DeploymentsSucceed(answers, old(deployments), inv)
                          && answers.kind(p.after[0]) && (answers.kind(p.after[1]) ==> answers.kind(p.after[2])))
      ensures ok ==> |c| == if answers.kind(p.after[1]) then 3 else 1
    {
      inv, b, c := *, [], [];
      ok, a := ApplyPrelude(p, jobs, answers);
      if !ok { return; }
      ok, inv, b := ApplyDeployments(ns, selector, desired, answers);
      EffectsOf(Script(inv), Writes(inv), |inv.create + inv.update|, b);
      if !ok { return; }
      ok, c := ApplyRest(p.after, answers);
    }

    /**
     apply. Whatever fails, what happens carries out the first tasks of the whole script, so that
     no deployment is written before every job was seen with one success and none is deleted
     before every created and updated one was seen stable. The cluster is what the logged writes
     make of it. It succeeds exactly when every call does, but for the autoscalers: their failure
     ends the application without an error, and without daemon sets.
     */
    method Apply(platform: Platform, jobs: seq<string>, ns: string, selector: Labels, desired: seq<Deployment>,
        answers: Answers)
      returns (ok: bool, ghost inv: Inventory<Deployment>, ghost es: seq<Event>)
      requires Keyed(DeploymentKey, deployments)
      modifies this
      ensures log == old(log) + es && Follows(es, Whole(PhasesOf(platform), jobs, inv)) && Ordered(es, jobs, inv)
      ensures Exec(DeploymentKey, old(deployments), Effects(es)) == Some(deployments)
      ensures Placed(es, platform) && (ok ==> Complete(es, platform, answers))
      ensures Prepared(answers, platform, jobs) ==>
                IsInventory(DEPLOYMENTS, Selected(DeploymentIn(ns, selector), old(deployments)),
                    ByKey(DeploymentKey, desired), inv)
      ensures !Prepared(answers, platform, jobs) || !answers.listed ==> forall e :: e in es ==> !e.Wrote?
      ensures ok <==> && Prepared(answers, platform, jobs) && answers.listed
                      && DeploymentsSucceed(answers, old(deployments), inv) && Finished(answers, platform)
    {
      ghost var a, b, c;
      ok, inv, a, b, c := ApplyPhases(PhasesOf(platform), jobs, ns, selector, desired, answers);
      es := a + b + c;
      Joined(old(log), a, b, c);
      StagesFollow(PhasesOf(platform), jobs, inv, a, b, c);
      StagedEffects(PhasesOf(platform), jobs, inv, a, b, c);
      FollowsIsOrdered(PhasesOf(platform), jobs, inv, es);
      PreparedIs(answers, platform, jobs);
      FollowsIsPlaced(platform, jobs, inv, es);
      if ok { LongIsComplete(platform, jobs, inv, es, answers); }
    }
  }

  lemma Joined(l: seq<Event>, a: seq<Event>, b: seq<Event>, c: seq<Event>)
    ensures l + a + b + c == l + (a + b + c)
  {
  }
}
