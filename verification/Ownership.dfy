/**
 Who manages a custom resource when several operators watch it
 (pkg/controller/jaeger/jaeger_controller.go, Reconcile). Operators are told apart by their
 identity; between any two of their calls anything may happen.
 */
module Ownership {
  import opened Text

  /** `uid` tells apart the incarnations of a resource that was deleted and created again. */
  datatype CR = CR(uid: nat, version: nat, operatedBy: Option<string>, body: string, phase: string)

  datatype Event = Claimed(uid: nat, op: string) | Applied(uid: nat, op: string)

  /** `local` is the copy each operator is working on, `owner` the label each incarnation got. */
  datatype State = State(cr: Option<CR>, clock: nat, local: map<string, CR>, owner: map<nat, string>, log: seq<Event>)

  datatype Step =
    | Get(op: string)
    | Claim(op: string, lost: bool)
    | Status(op: string, phase: string)
    | Apply(op: string)
    | StoreBack(op: string, body: string)
    | Edit(body: string)
    | Relabel(mark: Option<string>)
    | Remove
    | Create(mark: Option<string>, body: string)

  predicate ByOther(step: Step, me: string) { ByUser(step) || step.op != me }

  predicate ByUser(step: Step) { step.Edit? || step.Relabel? || step.Remove? || step.Create? }

  /** The API server takes a write of the operator's copy; `cas` is its version check. */
  predicate Accepts(cas: bool, s: State, op: string) {
    && op in s.local && s.cr.Some? && s.cr.value.uid == s.local[op].uid
    && (cas ==> s.cr.value.version == s.local[op].version)
  }

  /** Stores `x` as the new version of the resource, and in the operator's copy. */
  function Stored(s: State, op: string, x: CR): State {
    var y := x.(version := s.clock);
    s.(cr := Some(y), clock := s.clock + 1, local := s.local[op := y])
  }

  /** One step; None where it cannot happen. Refused writes change nothing. */
  function Next(cas: bool, s: State, step: Step): Option<State> {
    match step
    case Get(op) =>
      Some(s.(local := if s.cr.Some? then s.local[op := s.cr.value] else s.local - {op}))
    case Claim(op, lost) =>
      if op !in s.local || s.local[op].operatedBy.Some? then None
      else if lost || !Accepts(cas, s, op) then Some(s)
      else
        var x := s.local[op].(operatedBy := Some(op));
        Some(Stored(s, op, x).(owner := s.owner[x.uid := op], log := s.log + [Claimed(x.uid, op)]))
    case Status(op, phase) =>
      if op !in s.local then None
      else if !Accepts(cas, s, op) then Some(s)
      else Some(Stored(s, op, s.cr.value.(phase := phase)))
    case Apply(op) =>
      if op !in s.local || s.local[op].operatedBy != Some(op) then None
      else Some(s.(log := s.log + [Applied(s.local[op].uid, op)]))
    case StoreBack(op, body) =>
      if op !in s.local || s.local[op].operatedBy != Some(op) then None
      else if !Accepts(cas, s, op) then Some(s)
      else Some(Stored(s, op, s.local[op].(body := body)))
    case Edit(body) =>
      if s.cr.None? then None
      else Some(s.(cr := Some(s.cr.value.(body := body, version := s.clock)), clock := s.clock + 1))
    case Relabel(l) =>
      if s.cr.None? then None
      else Some(s.(cr := Some(s.cr.value.(operatedBy := l, version := s.clock)), clock := s.clock + 1))
    case Remove => Some(s.(cr := None))
    case Create(l, body) =>
      if s.cr.Some? then None
      else Some(s.(cr := Some(CR(s.clock, s.clock, l, body, "")), clock := s.clock + 1,
                   owner := if l.Some? then s.owner[s.clock := l.value] else s.owner))
  }

  function RunOf(cas: bool, s: State, steps: seq<Step>): Option<State> {
    if steps == [] then Some(s)
    else
      var t := RunOf(cas, s, steps[..|steps| - 1]);
      if t.None? then None else Next(cas, t.value, steps[|steps| - 1])
  }

  /** Nobody but the operators writes the label. */
  ghost predicate Unrelabelled(steps: seq<Step>) { forall i :: 0 <= i < |steps| ==> !steps[i].Relabel? }

  // --- Safety ------------------------------------------------------------------------------

  /** A copy agrees with the label its incarnation got, and a version names one state. */
  ghost predicate Faithful(s: State, x: CR) {
    && x.version < s.clock && x.uid < s.clock
    && (x.operatedBy.Some? ==> x.uid in s.owner && s.owner[x.uid] == x.operatedBy.value)
    && (s.cr.Some? && s.cr.value.version == x.version ==> s.cr.value == x)
  }

  ghost predicate Inv(s: State) {
    && (s.cr.Some? ==> Faithful(s, s.cr.value) && (s.cr.value.operatedBy.None? ==> s.cr.value.uid !in s.owner))
    && (forall op :: op in s.local ==> Faithful(s, s.local[op]))
    && (forall uid :: uid in s.owner ==> uid < s.clock)
    && (forall i :: 0 <= i < |s.log| ==> s.log[i].uid in s.owner && s.owner[s.log[i].uid] == s.log[i].op)
    && (forall i, j :: 0 <= i < j < |s.log| && s.log[i].Claimed? && s.log[j].Claimed? ==> s.log[i].uid != s.log[j].uid)
  }

  /** Nothing has happened yet; the resource may exist, labelled or not. */
  ghost predicate Initial(s: State) {
    && s.local == map[] && s.log == []
    && (s.cr.Some? ==> s.cr.value.uid < s.clock && s.cr.value.version < s.clock)
    && s.owner == if s.cr.Some? && s.cr.value.operatedBy.Some? then map[s.cr.value.uid := s.cr.value.operatedBy.value]
        else map[]
  }

  lemma ClaimKeepsInv(s: State, op: string, lost: bool)
    requires Inv(s) && Next(true, s, Claim(op, lost)).Some?
    ensures Inv(Next(true, s, Claim(op, lost)).value)
  {
    if !lost && Accepts(true, s, op) {
      assert s.cr.value == s.local[op];
      assert s.local[op].uid !in s.owner;
    }
  }

  lemma WriteKeepsInv(s: State, op: string, x: CR)
    requires Inv(s) && s.cr.Some? && op in s.local && x.uid == s.cr.value.uid && x.operatedBy == s.cr.value.operatedBy
    ensures Inv(Stored(s, op, x))
  {
  }

  lemma GetKeepsInv(s: State, op: string)
    requires Inv(s)
    ensures Inv(Next(true, s, Get(op)).value)
  {
  }

  lemma ApplyKeepsInv(s: State, op: string)
    requires Inv(s) && Next(true, s, Apply(op)).Some?
    ensures Inv(Next(true, s, Apply(op)).value)
  {
  }

  lemma UserKeepsInv(s: State, step: Step)
    requires Inv(s) && Next(true, s, step).Some? && (step.Edit? || step.Create?)
    ensures Inv(Next(true, s, step).value)
  {
  }

  lemma StepKeepsInv(s: State, step: Step)
    requires Inv(s) && Next(true, s, step).Some? && !step.Relabel?
    ensures Inv(Next(true, s, step).value)
  {
    match step
    case Claim(op, lost) => ClaimKeepsInv(s, op, lost);
    case Status(op, phase) =>
      if Accepts(true, s, op) { WriteKeepsInv(s, op, s.cr.value.(phase := phase)); }
    case StoreBack(op, body) =>
      if Accepts(true, s, op) { WriteKeepsInv(s, op, s.local[op].(body := body)); }
    case Get(op) => GetKeepsInv(s, op);
    case Apply(op) => ApplyKeepsInv(s, op);
    case _ =>
      if !step.Remove? { UserKeepsInv(s, step); }
  }

  lemma {:induction false} RunKeepsInv(s: State, steps: seq<Step>)
    requires Inv(s) && RunOf(true, s, steps).Some? && Unrelabelled(steps)
    ensures Inv(RunOf(true, s, steps).value)
  {
    if steps != [] {
      var before := steps[..|steps| - 1];
      RunKeepsInv(s, before);
      StepKeepsInv(RunOf(true, s, before).value, steps[|steps| - 1]);
    }
  }

  /**
   Ownership safety. In every run of any number of operators, with edits, removals and
   re-creations by users anywhere, an incarnation of the resource is claimed at most once, and
   only the operator that its label names ever applies it.
   */
  lemma OwnershipSafety(s: State, steps: seq<Step>)
    requires Initial(s) && RunOf(true, s, steps).Some? && Unrelabelled(steps)
    ensures var t := RunOf(true, s, steps).value;
            && (forall i, j :: 0 <= i < j < |t.log| && t.log[i].Claimed? && t.log[j].Claimed? ==>
                t.log[i].uid != t.log[j].uid)
            && (forall i, j :: 0 <= i < |t.log| && 0 <= j < |t.log| && t.log[i].uid == t.log[j].uid ==>
                t.log[i].op == t.log[j].op)
            && (forall i :: 0 <= i < |t.log| && t.cr.Some? && t.cr.value.uid == t.log[i].uid ==>
                  t.cr.value.operatedBy == Some(t.log[i].op))
  {
    RunKeepsInv(s, steps);
  }

  // --- Both conditions are needed ----------------------------------------------------------

  lemma RunOne(cas: bool, s: State, steps: seq<Step>, step: Step)
    ensures RunOf(cas, s, steps + [step]) ==
              var t := RunOf(cas, s, steps); if t.None? then None else Next(cas, t.value, step)
  {
    assert (steps + [step])[..|steps|] == steps;
  }

  /** An unlabelled resource that no operator has read. */
  const UNCLAIMED := State(Some(CR(0, 0, None, "", "")), 1, map[], map[], [])

  /** The steps lead from the unclaimed resource to `t`. */
  ghost predicate Leads(cas: bool, steps: seq<Step>, t: State) {
    RunOf(cas, UNCLAIMED, steps) == Some(t)
  }

  lemma LeadsOn(cas: bool, steps: seq<Step>, t: State, step: Step, u: State)
    requires Leads(cas, steps, t) && Next(cas, t, step) == Some(u)
    ensures Leads(cas, steps + [step], u)
  {
    RunOne(cas, UNCLAIMED, steps, step);
  }

  /** An operator claims what it read unlabelled, and applies it; without the version check nothing stops it. */
  lemma ClaimedBlindly(steps: seq<Step>, t: State, op: string) returns (u: State)
    requires Leads(false, steps, t) && op in t.local && t.local[op] == UNCLAIMED.cr.value
    requires t.cr.Some? && t.cr.value.uid == 0
    ensures Leads(false, steps + [Claim(op, false)] + [Apply(op)], u)
    ensures u.log == t.log + [Claimed(0, op)] + [Applied(0, op)] && u.cr.Some? && u.cr.value.uid == 0
    ensures forall other :: other in t.local && other != op ==> other in u.local && u.local[other] == t.local[other]
  {
    var t1 := Next(false, t, Claim(op, false)).value;
    LeadsOn(false, steps, t, Claim(op, false), t1);
    u := Next(false, t1, Apply(op)).value;
    LeadsOn(false, steps + [Claim(op, false)], t1, Apply(op), u);
  }

  lemma BothRead(a: string, b: string) returns (t: State)
    ensures Leads(false, [] + [Get(a)] + [Get(b)], t) && t.log == [] && t.cr == UNCLAIMED.cr
    ensures a in t.local && b in t.local && t.local[a] == t.local[b] == UNCLAIMED.cr.value
  {
    var s1 := Next(false, UNCLAIMED, Get(a)).value;
    LeadsOn(false, [], UNCLAIMED, Get(a), s1);
    t := Next(false, s1, Get(b)).value;
    LeadsOn(false, [] + [Get(a)], s1, Get(b), t);
  }

  lemma UnclaimedIsInitial()
    ensures Initial(UNCLAIMED)
  {
  }

  /** Without the version check two operators that read the unlabelled resource both apply it. */
  lemma BlindWritesShareOwnership(a: string, b: string)
    requires a != b
    ensures exists s: State, steps: seq<Step> :: Initial(s) && RunOf(false, s, steps).Some? && Unrelabelled(steps)
              && RunOf(false, s, steps).value.log == [Claimed(0, a), Applied(0, a), Claimed(0, b), Applied(0, b)]
  {
    UnclaimedIsInitial();
    var read := [] + [Get(a)] + [Get(b)];
    var t := BothRead(a, b);
    var u := ClaimedBlindly(read, t, a);
    var first := read + [Claim(a, false)] + [Apply(a)];
    var v := ClaimedBlindly(first, u, b);
    var steps := first + [Claim(b, false)] + [Apply(b)];
    assert Unrelabelled(steps);
    assert RunOf(false, UNCLAIMED, steps).value == v;
  }

  /** A user who takes the label off hands the resource to whoever claims it next. */
  lemma RelabelledIsClaimedAgain(a: string, b: string)
    requires a != b
    ensures exists s: State, steps: seq<Step> :: Initial(s) && RunOf(true, s, steps).Some?
              && RunOf(true, s, steps).value.log == [Claimed(0, a), Claimed(0, b)]
  {
    UnclaimedIsInitial();
    var t := ClaimedAndFreed(a);
    var t1 := Next(true, t, Get(b)).value;
    var steps := [] + [Get(a)] + [Claim(a, false)] + [Relabel(None)];
    LeadsOn(true, steps, t, Get(b), t1);
    var u := Next(true, t1, Claim(b, false)).value;
    LeadsOn(true, steps + [Get(b)], t1, Claim(b, false), u);
    assert RunOf(true, UNCLAIMED, steps + [Get(b)] + [Claim(b, false)]).value == u;
  }

  lemma ClaimedAndFreed(a: string) returns (t: State)
    ensures Leads(true, [] + [Get(a)] + [Claim(a, false)] + [Relabel(None)], t)
    ensures t.log == [Claimed(0, a)] && t.cr.Some? && t.cr.value.operatedBy.None? && t.cr.value.uid == 0
  {
    var s1 := Next(true, UNCLAIMED, Get(a)).value;
    LeadsOn(true, [], UNCLAIMED, Get(a), s1);
    var s2 := Next(true, s1, Claim(a, false)).value;
    LeadsOn(true, [] + [Get(a)], s1, Claim(a, false), s2);
    t := Next(true, s2, Relabel(None)).value;
    LeadsOn(true, [] + [Get(a)] + [Claim(a, false)], s2, Relabel(None), t);
  }

  // --- Runs from one operator's point of view ----------------------------------------------

  /** The steps that the operator itself takes. */
  function Own(steps: seq<Step>, me: string): seq<Step> {
    if steps == [] then []
    else Own(steps[..|steps| - 1], me) + (if ByOther(steps[|steps| - 1], me) then [] else [steps[|steps| - 1]])
  }

  /** What the log says about the operator. */
  function EventsOf(log: seq<Event>, me: string): seq<Event> {
    if log == [] then []
    else EventsOf(log[..|log| - 1], me) + (if log[|log| - 1].op == me then [log[|log| - 1]] else [])
  }

  /**
   `t` comes about from `s` by `own` steps of the operator, between steps of others and of users
   who leave the label alone.
   */
  ghost predicate Trace(s: State, t: State, me: string, own: seq<Step>) {
    exists steps :: Unrelabelled(steps) && RunOf(true, s, steps) == Some(t) && Own(steps, me) == own
  }

  lemma {:induction false} RunConcat(s: State, p: seq<Step>, q: seq<Step>)
    ensures RunOf(true, s, p + q) == var t := RunOf(true, s, p); if t.None? then None else RunOf(true, t.value, q)
    decreases |q|
  {
    if q == [] {
      assert p + q == p;
    } else {
      RunConcat(s, p, q[..|q| - 1]);
      assert p + q == (p + q[..|q| - 1]) + [q[|q| - 1]];
      RunOne(true, s, p + q[..|q| - 1], q[|q| - 1]);
    }
  }

  lemma {:induction false} OwnConcat(p: seq<Step>, q: seq<Step>, me: string)
    ensures Own(p + q, me) == Own(p, me) + Own(q, me)
    decreases |q|
  {
    if q == [] {
      assert p + q == p;
    } else {
      assert (p + q)[..|p + q| - 1] == p + q[..|q| - 1];
      OwnConcat(p, q[..|q| - 1], me);
    }
  }

  lemma TraceNone(s: State, me: string)
    ensures Trace(s, s, me, [])
  {
    assert Unrelabelled([]) && RunOf(true, s, []) == Some(s) && Own([], me) == [];
  }

  lemma TraceOn(s: State, t: State, u: State, me: string, a: seq<Step>, b: seq<Step>)
    requires Trace(s, t, me, a) && Trace(t, u, me, b)
    ensures Trace(s, u, me, a + b)
  {
    var p :| Unrelabelled(p) && RunOf(true, s, p) == Some(t) && Own(p, me) == a;
    var q :| Unrelabelled(q) && RunOf(true, t, q) == Some(u) && Own(q, me) == b;
    RunConcat(s, p, q);
    OwnConcat(p, q, me);
    assert Unrelabelled(p + q);
  }

  lemma TraceOne(s: State, step: Step)
    requires !ByUser(step) && Next(true, s, step).Some?
    ensures Trace(s, Next(true, s, step).value, step.op, [step])
  {
    assert [step][..0] == [];
    RunOne(true, s, [], step);
    assert [] + [step] == [step];
    assert Own([step], step.op) == [step] && Unrelabelled([step]);
  }

  lemma {:induction false} OthersOwnNothing(steps: seq<Step>, me: string)
    requires forall i :: 0 <= i < |steps| ==> ByOther(steps[i], me)
    ensures Own(steps, me) == []
  {
    if steps != [] { OthersOwnNothing(steps[..|steps| - 1], me); }
  }

  lemma TraceOfOthers(s: State, steps: seq<Step>, t: State, me: string)
    requires Unrelabelled(steps) && (forall i :: 0 <= i < |steps| ==> ByOther(steps[i], me))
               && RunOf(true, s, steps) == Some(t)
    ensures Trace(s, t, me, [])
  {
    OthersOwnNothing(steps, me);
  }

  /** Steps of others leave an operator's copy alone, and what the log says about it. */
  lemma {:induction false} OthersLeaveMe(s: State, steps: seq<Step>, me: string)
    requires RunOf(true, s, steps).Some? && Own(steps, me) == []
    ensures var t := RunOf(true, s, steps).value;
            && (me in t.local <==> me in s.local) && (me in s.local ==> t.local[me] == s.local[me])
            && EventsOf(t.log, me) == EventsOf(s.log, me)
  {
    if steps != [] {
      var last := |steps| - 1;
      OthersLeaveMe(s, steps[..last], me);
      OtherLeavesMe(RunOf(true, s, steps[..last]).value, steps[last], me);
    }
  }

  lemma OtherLeavesMe(s: State, step: Step, me: string)
    requires Next(true, s, step).Some? && ByOther(step, me)
    ensures var t := Next(true, s, step).value;
            && (me in t.local <==> me in s.local) && (me in s.local ==> t.local[me] == s.local[me])
            && EventsOf(t.log, me) == EventsOf(s.log, me)
  {
    OtherLeavesCopy(s, step, me);
    OtherLeavesLog(s, step, me);
  }

  lemma OtherLeavesCopy(s: State, step: Step, me: string)
    requires Next(true, s, step).Some? && ByOther(step, me)
    ensures var t := Next(true, s, step).value;
            (me in t.local <==> me in s.local) && (me in s.local ==> t.local[me] == s.local[me])
  {
  }

  lemma OtherLeavesLog(s: State, step: Step, me: string)
    requires Next(true, s, step).Some? && ByOther(step, me)
    ensures EventsOf(Next(true, s, step).value.log, me) == EventsOf(s.log, me)
  {
    LogGrows(s, step, me);
  }

  /** What a step adds to the log. */
  lemma LogGrows(s: State, step: Step, me: string)
    requires Next(true, s, step).Some?
    ensures var t := Next(true, s, step).value;
            var claims := step.Claim? && !step.lost && Accepts(true, s, step.op);
            EventsOf(t.log, me) == EventsOf(s.log, me)
              + if step.Apply? && step.op == me then [Applied(s.local[me].uid, me)]
                else if claims && step.op == me then [Claimed(s.local[me].uid, me)] else []
  {
    var t := Next(true, s, step).value;
    if t.log != s.log { assert t.log[..|t.log| - 1] == s.log; }
  }

  lemma TraceLeavesMe(s: State, t: State, me: string)
    requires Trace(s, t, me, [])
    ensures (me in t.local <==> me in s.local) && (me in s.local ==> t.local[me] == s.local[me])
    ensures EventsOf(t.log, me) == EventsOf(s.log, me)
  {
    var steps :| Unrelabelled(steps) && RunOf(true, s, steps) == Some(t) && Own(steps, me) == [];
    OthersLeaveMe(s, steps, me);
  }

  // --- Reconcile ---------------------------------------------------------------------------

  /** What becomes of a write: it does not arrive, it arrives but its answer does not, or both do. */
  datatype Reception = Lost | Unanswered | Answered

  /**
   How the calls of a reconciliation end: the Get, the clean-up after a resource that is gone, what
   precedes the look at the label, the claim, the report of a failure, the application, the change
   to store back, and the status, which may be outdated.
   */
  datatype Answers = Answers(
    got: bool, cleaned: bool, valid: bool, claim: Reception, report: Reception,
    applies: bool, change: Option<string>, store: Reception, outdated: bool, running: Reception)

  /** The calls that report a failure. */
  function Reports(me: string, report: Reception): seq<Step> { if report == Lost then [] else [Status(me, "Failed")] }

  /** The resource as the operator's Get found it on the way from `s` to `seen`. */
  ghost predicate ReadAt(s: State, seen: State, me: string) {
    exists at :: Trace(s, at, me, []) && Next(true, at, Get(me)) == Some(seen)
  }

  /** Labelled for another operator. */
  predicate Foreign(copy: CR, me: string) { copy.operatedBy.Some? && copy.operatedBy != Some(me) }

  /** The resource is still as it was read. */
  predicate Unchanged(s: State, copy: CR) {
    s.cr.Some? && s.cr.value.uid == copy.uid && s.cr.value.version == copy.version
  }

  /**
   An unlabelled copy is claimed, once, and nothing is applied. The claim counts, and is logged,
   when it arrives while the resource is as it was read; anything but a good answer is reported.
   */
  ghost predicate Claims(s: State, t: State, me: string, answers: Answers, copy: CR, calls: seq<Step>, err: bool) {
    exists at :: ClaimsAt(s, t, me, answers, copy, calls, err, at)
  }

  ghost predicate ClaimsAt(s: State, t: State, me: string, answers: Answers, copy: CR, calls: seq<Step>, err: bool,
      at: State) {
    var claimed := answers.claim != Lost && Unchanged(at, copy);
    && Trace(s, at, me, [Get(me)])
    && calls == [Get(me), Claim(me, answers.claim == Lost)]
                + (if claimed && answers.claim == Answered then [] else Reports(me, answers.report))
    && (err <==> !(claimed && answers.claim == Answered))
    && EventsOf(t.log, me) == EventsOf(s.log, me) + if claimed then [Claimed(copy.uid, me)] else []
  }

  /** The change that For and the upgrade made, if it is sent. */
  function Stores(me: string, answers: Answers): seq<Step> {
    if answers.change.None? || answers.store == Lost then [] else [StoreBack(me, answers.change.value)]
  }

  /** What follows an application: a report, or the change, and behind a stored change the status. */
  ghost predicate AfterApply(me: string, answers: Answers, calls: seq<Step>, stored: bool, ran: bool, err: bool) {
    if !answers.applies then err && calls == Reports(me, answers.report)
    else
      var goesOn := answers.change.None? || stored;
      && calls == Stores(me, answers)
                  + (if goesOn && answers.outdated && answers.running != Lost then [Status(me, "Running")] else [])
      && (err <==> !goesOn || (answers.outdated && !ran))
  }

  /** The change is stored when it arrives while the resource is as it was read, and is answered. */
  ghost predicate StoredAt(s: State, me: string, answers: Answers, copy: CR, stored: bool) {
    exists at :: Trace(s, at, me, [Get(me), Apply(me)])
        && (stored <==> answers.store == Answered && Unchanged(at, copy))
  }

  /** The status likewise, from the operator's copy after the change. */
  ghost predicate RanAt(s: State, me: string, answers: Answers, ran: bool) {
    exists at :: Trace(s, at, me, [Get(me), Apply(me)] + Stores(me, answers))
                 && (ran <==> answers.running == Answered && Accepts(true, at, me))
  }

  lemma TraceKeepsInv(s: State, t: State, me: string, own: seq<Step>)
    requires Trace(s, t, me, own) && Inv(s)
    ensures Inv(t)
  {
    var steps :| Unrelabelled(steps) && RunOf(true, s, steps) == Some(t) && Own(steps, me) == own;
    RunKeepsInv(s, steps);
  }

  class Server {
    var s: State

    /** Any steps of users and of other operators. */
    method Interfere(me: string)
      modifies this
      ensures Trace(old(s), s, me, [])
    {
      TraceNone(s, me);
      var steps: seq<Step> := *;
      var t := RunOf(true, s, steps);
      if t.Some? && (forall i :: 0 <= i < |steps| ==> !steps[i].Relabel? && ByOther(steps[i], me)) {
        TraceOfOthers(s, steps, t.value, me);
        s := t.value;
      }
    }

    /** One call of an operator, after whatever happened before it reached the server. */
    method Call(step: Step) returns (accepted: bool, ghost at: State)
      requires !ByUser(step) && (!step.Get? ==> step.op in s.local)
      requires step.Claim? ==> s.local[step.op].operatedBy.None?
      requires step.Apply? || step.StoreBack? ==> s.local[step.op].operatedBy == Some(step.op)
      modifies this
      ensures Trace(old(s), at, step.op, []) && Next(true, at, step) == Some(s)
      ensures accepted == Accepts(true, at, step.op)
      ensures Trace(old(s), s, step.op, [step])
    {
      Interfere(step.op);
      TraceLeavesMe(old(s), s, step.op);
      at := s;
      accepted := Accepts(true, s, step.op);
      TraceOne(s, step);
      s := Next(true, s, step).value;
      TraceOn(old(s), at, s, step.op, [], [step]);
    }

    /** Reports a failure, unless the report gets lost. */
    method Report(me: string, report: Reception)
      requires me in s.local
      modifies this
      ensures Trace(old(s), s, me, Reports(me, report)) && EventsOf(s.log, me) == EventsOf(old(s).log, me)
    {
      if report == Lost {
        TraceNone(s, me);
      } else {
        var accepted;
        ghost var at;
        accepted, at := Call(Status(me, "Failed"));
        TraceLeavesMe(old(s), at, me);
        LogGrows(at, Status(me, "Failed"), me);
      }
    }

    /** The claim of an unlabelled resource, after the operator read it on the way from `start`. */
    method ClaimIt(me: string, answers: Answers, ghost start: State) returns (err: bool, ghost calls: seq<Step>)
      requires Trace(start, s, me, [Get(me)]) && EventsOf(s.log, me) == EventsOf(start.log, me)
      requires me in s.local && s.local[me].operatedBy.None?
      modifies this
      ensures Claims(start, s, me, answers, old(s).local[me], calls, err)
      ensures Trace(start, s, me, calls)
    {
      ghost var seen, copy := s, s.local[me];
      var step := Claim(me, answers.claim == Lost);
      var accepted;
      ghost var at;
      accepted, at := Call(step);
      TraceLeavesMe(seen, at, me);
      LogGrows(at, step, me);
      TraceOn(start, seen, at, me, [Get(me)], []);
      assert [Get(me)] + [] == [Get(me)];
      ghost var claimed := s;
      calls := [Get(me), step];
      TraceOn(start, seen, s, me, [Get(me)], [step]);
      assert [Get(me)] + [step] == calls;
      err := !(answers.claim == Answered && accepted);
      if err {
        Report(me, answers.report);
        TraceOn(start, claimed, s, me, calls, Reports(me, answers.report));
        calls := calls + Reports(me, answers.report);
      }
      assert ClaimsAt(start, s, me, answers, copy, calls, err, at);
    }

    /** Storing the change back. */
    method StoreIt(me: string, answers: Answers) returns (stored: bool, ghost at: State)
      requires me in s.local && s.local[me].operatedBy == Some(me) && answers.change.Some?
      modifies this
      ensures Trace(old(s), s, me, Stores(me, answers)) && EventsOf(s.log, me) == EventsOf(old(s).log, me)
      ensures Trace(old(s), at, me, []) && (stored <==> answers.store == Answered && Unchanged(at, old(s).local[me]))
      ensures me in s.local
    {
      TraceNone(s, me);
      stored, at := false, s;
      if answers.store == Lost { return; }
      var accepted;
      ghost var step := StoreBack(me, answers.change.value);
      accepted, at := Call(StoreBack(me, answers.change.value));
      TraceLeavesMe(old(s), at, me);
      LogGrows(at, step, me);
      stored := answers.store == Answered && accepted;
    }

    /** The status, unless it is as it should be or gets lost. */
    method RunIt(me: string, answers: Answers) returns (ran: bool, ghost at: State)
      requires me in s.local && answers.outdated
      modifies this
      ensures Trace(old(s), s, me, if answers.running == Lost then [] else [Status(me, "Running")])
      ensures EventsOf(s.log, me) == EventsOf(old(s).log, me)
      ensures Trace(old(s), at, me, []) && (ran <==> answers.running == Answered && Accepts(true, at, me))
    {
      TraceNone(s, me);
      ran, at := false, s;
      if answers.running == Lost { return; }
      var accepted;
      accepted, at := Call(Status(me, "Running"));
      TraceLeavesMe(old(s), at, me);
      LogGrows(at, Status(me, "Running"), me);
      ran := answers.running == Answered && accepted;
    }

    /** What follows a successful application. */
    method FinishIt(me: string, answers: Answers, ghost start: State)
      returns (err: bool, ghost more: seq<Step>, ghost stored: bool, ghost ran: bool)
      requires Trace(start, s, me, [Get(me), Apply(me)]) && answers.applies
      requires me in s.local && s.local[me].operatedBy == Some(me)
      modifies this
      ensures AfterApply(me, answers, more, stored, ran, err) && Trace(old(s), s, me, more)
      ensures answers.change.Some? ==> StoredAt(start, me, answers, old(s).local[me], stored)
      ensures answers.outdated && (answers.change.None? || stored) ==> RanAt(start, me, answers, ran)
      ensures EventsOf(s.log, me) == EventsOf(old(s).log, me)
    {
      ghost var begin := s;
      ghost var at;
      TraceNone(s, me);
      more, stored, ran := [], false, false;
      if answers.change.Some? {
        var kept;
        kept, at := StoreIt(me, answers);
        TraceOn(start, begin, at, me, [Get(me), Apply(me)], []);
        assert [Get(me), Apply(me)] + [] == [Get(me), Apply(me)];
        more, stored := Stores(me, answers), kept;
        if !kept { return true, more, stored, ran; }
      }
      assert more == Stores(me, answers);
      TraceOn(start, begin, s, me, [Get(me), Apply(me)], more);
      if !answers.outdated { return false, more, stored, ran; }
      ghost var half := s;
      var done;
      done, at := RunIt(me, answers);
      TraceOn(start, half, at, me, [Get(me), Apply(me)] + more, []);
      assert [Get(me), Apply(me)] + more + [] == [Get(me), Apply(me)] + more;
      TraceOn(begin, half, s, me, more, if answers.running == Lost then [] else [Status(me, "Running")]);
      more := more + if answers.running == Lost then [] else [Status(me, "Running")];
      return !done, more, stored, done;
    }

    /** The application of a resource that is the operator's. */
    method ApplyIt(me: string, answers: Answers, ghost start: State)
      returns (err: bool, ghost calls: seq<Step>, ghost stored: bool, ghost ran: bool)
      requires Trace(start, s, me, [Get(me)]) && me in s.local && s.local[me].operatedBy == Some(me)
      modifies this
      ensures [Get(me), Apply(me)] <= calls && AfterApply(me, answers, calls[2..], stored, ran, err)
      ensures Trace(start, s, me, calls)
      ensures answers.applies && answers.change.Some? ==> StoredAt(start, me, answers, old(s).local[me], stored)
      ensures answers.applies && answers.outdated && (answers.change.None? || stored) ==> RanAt(start, me, answers, ran)
      ensures EventsOf(s.log, me) == EventsOf(old(s).log, me) + [Applied(old(s).local[me].uid, me)]
    {
      ghost var seen := s;
      var accepted;
      ghost var at;
      accepted, at := Call(Apply(me));
      TraceLeavesMe(seen, at, me);
      LogGrows(at, Apply(me), me);
      TraceOn(start, seen, s, me, [Get(me)], [Apply(me)]);
      assert [Get(me)] + [Apply(me)] == [Get(me), Apply(me)];
      ghost var begin := s;
      ghost var more;
      if answers.applies {
        err, more, stored, ran := FinishIt(me, answers, start);
      } else {
        Report(me, answers.report);
        err, more, stored, ran := true, Reports(me, answers.report), false, false;
      }
      TraceOn(start, begin, s, me, [Get(me), Apply(me)], more);
      calls := [Get(me), Apply(me)] + more;
      assert calls[2..] == more;
    }

    /**
     Reconcile, as far as ownership goes. The operator's own calls are `calls`: it reads the
     resource, and according to the label of its copy it does nothing more, claims the resource, or
     applies it. Every execution, whatever interferes with it, is a run of the operators and users,
     so that OwnershipSafety speaks about it.
     */
    method Reconcile(me: string, answers: Answers)
      returns (err: bool, applied: bool, ghost copy: Option<CR>, ghost calls: seq<Step>, ghost stored: bool,
          ghost ran: bool)
      modifies this
      ensures Trace(old(s), s, me, calls) && (Inv(old(s)) ==> Inv(s))
      ensures !answers.got ==> calls == [] && err && copy.None?
      ensures answers.got ==> exists seen :: ReadAt(old(s), seen, me) && seen.cr == copy
      ensures copy.None? && answers.got ==> calls == [Get(me)] && (err <==> !answers.cleaned)
      ensures copy.Some? && (!answers.valid || Foreign(copy.value, me)) ==>
                calls == [Get(me)] && (err <==> !answers.valid)
      ensures applied <==> copy.Some? && answers.valid && copy.value.operatedBy == Some(me)
      ensures applied ==>
                && [Get(me), Apply(me)] <= calls && AfterApply(me, answers, calls[2..], stored, ran, err)
                && (answers.applies && answers.change.Some? ==> StoredAt(old(s), me, answers, copy.value, stored))
                && (answers.applies && answers.outdated && (answers.change.None? || stored) ==>
                    RanAt(old(s), me, answers, ran))
                && EventsOf(s.log, me) == EventsOf(old(s).log, me) + [Applied(copy.value.uid, me)]
      ensures copy.Some? && answers.valid && copy.value.operatedBy.None? ==>
                Claims(old(s), s, me, answers, copy.value, calls, err)
      ensures copy.None? || !answers.valid || Foreign(copy.value, me) ==>
                EventsOf(s.log, me) == EventsOf(old(s).log, me)
    {
      ghost var start := s;
      TraceNone(s, me);
      err, applied, copy, calls, stored, ran := true, false, None, [], false, false;
      if !answers.got { return; }
      copy := Read(me);
      calls := [Get(me)];
      if me !in s.local {
        err := !answers.cleaned;
      } else if answers.valid {
        if s.local[me].operatedBy.None? {
          err, calls := ClaimIt(me, answers, start);
        } else if s.local[me].operatedBy.value != me {
          err := false;
        } else {
          applied := true;
          err, calls, stored, ran := ApplyIt(me, answers, start);
        }
      }
      if Inv(start) { TraceKeepsInv(start, s, me, calls); }
    }

    /** The Get. */
    method Read(me: string) returns (ghost copy: Option<CR>)
      modifies this
      ensures Trace(old(s), s, me, [Get(me)]) && EventsOf(s.log, me) == EventsOf(old(s).log, me)
      ensures ReadAt(old(s), s, me) && s.cr == copy
      ensures copy == if me in s.local then Some(s.local[me]) else None
    {
      var accepted;
      ghost var at;
      accepted, at := Call(Get(me));
      TraceLeavesMe(old(s), at, me);
      LogGrows(at, Get(me), me);
      copy := s.cr;
    }
  }
}
