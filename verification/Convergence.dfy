/**
 What a pass over one kind of object does to the cluster: the writes planned by the
 inventory, cut short by any failure (pkg/controller/jaeger/deployment.go, service.go).
 */
module Convergence {
  import opened Text
  import opened Diff

  type Store<T> = map<string, T>

  datatype Write<T> = Create(obj: T) | Update(obj: T) | Delete(obj: T)

  /** The API server's answer to one write; None is a refusal. */
  function Exec1<T>(key: T -> string, store: Store<T>, w: Write<T>): Option<Store<T>> {
    var k := key(w.obj);
    match w
    case Create(x) => if k in store then None else Some(store[k := x])
    case Update(x) => if k in store then Some(store[k := x]) else None
    case Delete(_) => if k in store then Some(store - {k}) else None
  }

  function Exec<T>(key: T -> string, store: Store<T>, ws: seq<Write<T>>): Option<Store<T>> {
    if ws == [] then Some(store)
    else
      var before := Exec(key, store, ws[..|ws| - 1]);
      if before.None? then None else Exec1(key, before.value, ws[|ws| - 1])
  }

  function Creates<T>(s: seq<T>): seq<Write<T>> { seq(|s|, i requires 0 <= i < |s| => Create(s[i])) }
  function Updates<T>(s: seq<T>): seq<Write<T>> { seq(|s|, i requires 0 <= i < |s| => Update(s[i])) }
  function Deletes<T>(s: seq<T>): seq<Write<T>> { seq(|s|, i requires 0 <= i < |s| => Delete(s[i])) }

  /** The writes of a pass, in the order it issues them. */
  function Writes<T>(inv: Inventory<T>): seq<Write<T>> {
    Creates(inv.create) + Updates(inv.update) + Deletes(inv.delete)
  }

  lemma {:induction false} ExecConcat<T>(key: T -> string, store: Store<T>, p: seq<Write<T>>, q: seq<Write<T>>)
    ensures var mid := Exec(key, store, p);
            Exec(key, store, p + q) == if mid.None? then None else Exec(key, mid.value, q)
    decreases |q|
  {
    if q == [] {
      assert p + q == p;
    } else {
      ExecConcat(key, store, p, q[..|q| - 1]);
      assert (p + q)[..|p + q| - 1] == p + q[..|q| - 1];
    }
  }

  // --- The three batches -------------------------------------------------------------------

  lemma {:induction false} ExecCreates<T>(key: T -> string, store: Store<T>, s: seq<T>, m: map<string, T>)
    requires Enumerates(key, s, m) && forall k :: k in m ==> k !in store
    ensures Exec(key, store, Creates(s)) == Some(store + m)
    decreases |s|
  {
    if s == [] {
      assert store + map[] == store;
    } else {
      EnumeratesPrefix(key, s, m);
      var last, rest := s[|s| - 1], s[..|s| - 1];
      var before := ByKey(key, rest);
      assert before.Keys <= m.Keys;
      ExecCreates(key, store, rest, before);
      assert Creates(s)[..|s| - 1] == Creates(rest) && Creates(s)[|s| - 1] == Create(last);
      assert key(last) !in store && key(last) !in store + before;
      OneMore(store, before, m, key(last), last);
    }
  }

  lemma OneMore<T>(store: Store<T>, before: map<string, T>, m: map<string, T>, k: string, x: T)
    requires m == before[k := x]
    ensures (store + before)[k := x] == store + m
  {
  }

  /** Creating what is already there is refused. */
  lemma {:induction false} ExecCreatesBlocked<T>(key: T -> string, store: Store<T>, s: seq<T>, m: map<string, T>,
      k: string)
    requires Enumerates(key, s, m) && k in m && k in store
    ensures Exec(key, store, Creates(s)).None?
    decreases |s|
  {
    EnumeratesPrefix(key, s, m);
    var last, rest := s[|s| - 1], s[..|s| - 1];
    var before := ByKey(key, rest);
    assert Creates(s)[..|s| - 1] == Creates(rest);
    if exists x :: x in before && x in store {
      var x :| x in before && x in store;
      ExecCreatesBlocked(key, store, rest, before, x);
    } else {
      ExecCreates(key, store, rest, before);
    }
  }

  lemma {:induction false} ExecUpdates<T>(key: T -> string, store: Store<T>, s: seq<T>, m: map<string, T>)
    requires Enumerates(key, s, m) && m.Keys <= store.Keys
    ensures Exec(key, store, Updates(s)) == Some(store + m)
    decreases |s|
  {
    if s == [] {
      assert store + map[] == store;
    } else {
      EnumeratesPrefix(key, s, m);
      var last, rest := s[|s| - 1], s[..|s| - 1];
      var before := ByKey(key, rest);
      assert before.Keys <= m.Keys;
      ExecUpdates(key, store, rest, before);
      assert Updates(s)[..|s| - 1] == Updates(rest);
      assert (store + before)[key(last) := last] == store + m;
    }
  }

  lemma {:induction false} ExecDeletes<T>(key: T -> string, store: Store<T>, s: seq<T>, m: map<string, T>)
    requires Enumerates(key, s, m) && m.Keys <= store.Keys
    ensures Exec(key, store, Deletes(s)) == Some(store - m.Keys)
    decreases |s|
  {
    if s == [] {
      assert store - {} == store;
    } else {
      EnumeratesPrefix(key, s, m);
      var last, rest := s[|s| - 1], s[..|s| - 1];
      var before := ByKey(key, rest);
      assert before.Keys <= m.Keys;
      ExecDeletes(key, store, rest, before);
      assert Deletes(s)[..|s| - 1] == Deletes(rest);
      assert m.Keys == before.Keys + {key(last)};
      RemoveOneMore(store, before.Keys, key(last));
    }
  }

  lemma RemoveOneMore<T>(store: Store<T>, ks: set<string>, k: string)
    ensures (store - ks) - {k} == store - (ks + {k})
  {
  }

  // --- A pass without failures -------------------------------------------------------------

  /** What a List with the instance's selector shows. */
  function Selected<T>(selected: T -> bool, store: Store<T>): Store<T> {
    map k | k in store && selected(store[k]) :: store[k]
  }

  /** Merging keeps the key, and keeps the object visible to the List. */
  ghost predicate Lawful<T(!new)>(kind: Kind<T>, selected: T -> bool) {
    forall t, v :: kind.key(kind.merge(t, v)) == kind.key(t)
                && (selected(t) && selected(v) ==> selected(kind.merge(t, v)))
  }

  /** The desired objects, by key, carry the labels of the selector. */
  ghost predicate Wanted<T>(kind: Kind<T>, selected: T -> bool, want: map<string, T>) {
    Keyed(kind.key, want) && forall k :: k in want ==> selected(want[k])
  }

  /** Whatever exists at a desired key is visible to the List. */
  ghost predicate Visible<T>(selected: T -> bool, store: Store<T>, want: map<string, T>) {
    forall k :: k in want && k in store ==> selected(store[k])
  }

  /** The goal of a pass: the desired objects, merged with what was there, beside what is not ours. */
  function Target<T>(kind: Kind<T>, selected: T -> bool, store: Store<T>, want: map<string, T>): Store<T> {
    map k | k in store.Keys + want.Keys && (k in want || !selected(store[k])) ::
      if k !in want then store[k] else if k in store then kind.merge(store[k], want[k]) else want[k]
  }

  lemma BothBySelected<T>(kind: Kind<T>, selected: T -> bool, store: Store<T>, want: map<string, T>)
    requires Visible(selected, store, want)
    ensures var listed := Selected(selected, store);
            var made := want - listed.Keys;
            var both := Both(kind, listed, want);
            && (forall k :: k in made ==> k !in store)
            && both.Keys <= (store + made).Keys
            && (store + made) + both - (listed - want.Keys).Keys == Target(kind, selected, store, want)
  {
  }

  /**
   Every write of a pass is accepted exactly when what exists at a desired key is visible to
   the List; the pass then reaches its goal, whatever order the maps were ranged over.
   */
  lemma PassReachesTarget<T(!new)>(kind: Kind<T>, selected: T -> bool, store: Store<T>, want: map<string, T>,
      inv: Inventory<T>)
    requires IsInventory(kind, Selected(selected, store), want, inv)
    ensures Exec(kind.key, store, Writes(inv))
         == if Visible(selected, store, want) then Some(Target(kind, selected, store, want)) else None
  {
    var listed := Selected(selected, store);
    var made, both, gone := want - listed.Keys, Both(kind, listed, want), listed - want.Keys;
    ExecConcat(kind.key, store, Creates(inv.create) + Updates(inv.update), Deletes(inv.delete));
    ExecConcat(kind.key, store, Creates(inv.create), Updates(inv.update));
    if Visible(selected, store, want) {
      BothBySelected(kind, selected, store, want);
      ExecCreates(kind.key, store, inv.create, made);
      ExecUpdates(kind.key, store + made, inv.update, both);
      ExecDeletes(kind.key, store + made + both, inv.delete, gone);
    } else {
      var k :| k in want && k in store && !selected(store[k]);
      ExecCreatesBlocked(kind.key, store, inv.create, made, k);
    }
  }

  /** At the goal exactly the desired keys are selected, and foreign objects are as they were. */
  lemma TargetIsDesired<T(!new)>(kind: Kind<T>, selected: T -> bool, store: Store<T>, want: map<string, T>)
    requires Lawful(kind, selected) && Keyed(kind.key, store) && Wanted(kind, selected, want)
               && Visible(selected, store, want)
    ensures var r := Target(kind, selected, store, want);
            && Keyed(kind.key, r)
            && Selected(selected, r).Keys == want.Keys
            && (forall k :: k in store && !selected(store[k]) ==> k in r && r[k] == store[k])
            && (forall k :: k in r && !selected(r[k]) ==> k in store && r[k] == store[k])
  {
  }

  /** The cluster holds the desired objects already: merging them in changes nothing. */
  ghost predicate AtRest<T>(kind: Kind<T>, selected: T -> bool, store: Store<T>, want: map<string, T>) {
    && Selected(selected, store).Keys == want.Keys
    && forall k :: k in want ==> kind.merge(store[k], want[k]) == store[k]
  }

  lemma RestIsTarget<T(!new)>(kind: Kind<T>, selected: T -> bool, store: Store<T>, want: map<string, T>)
    requires AtRest(kind, selected, store, want)
    ensures Target(kind, selected, store, want) == store && Visible(selected, store, want)
    ensures Both(kind, Selected(selected, store), want) == Selected(selected, store)
    ensures want - Selected(selected, store).Keys == map[] && Selected(selected, store) - want.Keys == map[]
  {
    var listed := Selected(selected, store);
    assert forall k :: k in want ==> k in listed;
    assert Both(kind, listed, want) == listed;
    assert Target(kind, selected, store, want) == store;
  }

  /** At rest a pass plans no create, no delete and only identity updates. */
  lemma PassAtRest<T(!new)>(kind: Kind<T>, selected: T -> bool, store: Store<T>, want: map<string, T>,
      inv: Inventory<T>)
    requires Keyed(kind.key, store) && AtRest(kind, selected, store, want)
    requires IsInventory(kind, Selected(selected, store), want, inv)
    ensures inv.create == [] && inv.delete == []
    ensures forall u :: u in inv.update ==> kind.key(u) in store && store[kind.key(u)] == u
    ensures Exec(kind.key, store, Writes(inv)) == Some(store)
  {
    var listed := Selected(selected, store);
    RestIsTarget(kind, selected, store, want);
    forall u | u in inv.update ensures kind.key(u) in store && store[kind.key(u)] == u {
      EnumeratesMembers(kind.key, inv.update, listed, u);
    }
    PassReachesTarget(kind, selected, store, want, inv);
  }

  // --- A pass cut short --------------------------------------------------------------------

  /** A write that creates or updates only visible objects, and updates or deletes only listed ones. */
  ghost predicate Contained<T>(key: T -> string, selected: T -> bool, listed: Store<T>, w: Write<T>) {
    (w.Delete? || selected(w.obj)) && (w.Create? || key(w.obj) in listed)
  }

  lemma CreatesContained<T(!new)>(kind: Kind<T>, selected: T -> bool, listed: Store<T>, want: map<string, T>,
      create: seq<T>, x: T)
    requires Wanted(kind, selected, want) && Enumerates(kind.key, create, want - listed.Keys) && x in create
    ensures Contained(kind.key, selected, listed, Create(x))
  {
    EnumeratesMembers(kind.key, create, want - listed.Keys, x);
  }

  lemma UpdatesContained<T(!new)>(kind: Kind<T>, selected: T -> bool, listed: Store<T>, want: map<string, T>,
      update: seq<T>, x: T)
    requires Lawful(kind, selected) && Wanted(kind, selected, want) && forall k :: k in listed ==> selected(listed[k])
    requires Enumerates(kind.key, update, Both(kind, listed, want)) && x in update
    ensures Contained(kind.key, selected, listed, Update(x))
  {
    EnumeratesMembers(kind.key, update, Both(kind, listed, want), x);
  }

  lemma DeletesContained<T(!new)>(kind: Kind<T>, selected: T -> bool, listed: Store<T>, want: map<string, T>,
      delete: seq<T>, x: T)
    requires Enumerates(kind.key, delete, listed - want.Keys) && x in delete
    ensures Contained(kind.key, selected, listed, Delete(x))
  {
    EnumeratesMembers(kind.key, delete, listed - want.Keys, x);
  }

  lemma WriteAt<T>(inv: Inventory<T>, n: nat)
    requires n < |Writes(inv)|
    ensures var c, u := |inv.create|, |inv.update|;
            Writes(inv)[n] == if n < c then Create(inv.create[n])
                              else if n < c + u then Update(inv.update[n - c])
                              else Delete(inv.delete[n - c - u])
  {
  }

  lemma AllContained<T(!new)>(kind: Kind<T>, selected: T -> bool, listed: Store<T>, want: map<string, T>,
      inv: Inventory<T>)
    requires Lawful(kind, selected) && Wanted(kind, selected, want) && forall k :: k in listed ==> selected(listed[k])
    requires IsInventory(kind, listed, want, inv)
    ensures forall x :: x in inv.create ==> Contained(kind.key, selected, listed, Create(x))
    ensures forall x :: x in inv.update ==> Contained(kind.key, selected, listed, Update(x))
    ensures forall x :: x in inv.delete ==> Contained(kind.key, selected, listed, Delete(x))
  {
    forall x | x in inv.create ensures Contained(kind.key, selected, listed, Create(x)) {
      CreatesContained(kind, selected, listed, want, inv.create, x);
    }
    forall x | x in inv.update ensures Contained(kind.key, selected, listed, Update(x)) {
      UpdatesContained(kind, selected, listed, want, inv.update, x);
    }
    forall x | x in inv.delete ensures Contained(kind.key, selected, listed, Delete(x)) {
      DeletesContained(kind, selected, listed, want, inv.delete, x);
    }
  }

  lemma WritesContained<T(!new)>(key: T -> string, selected: T -> bool, listed: Store<T>, inv: Inventory<T>, n: nat)
    requires forall x :: x in inv.create ==> Contained(key, selected, listed, Create(x))
    requires forall x :: x in inv.update ==> Contained(key, selected, listed, Update(x))
    requires forall x :: x in inv.delete ==> Contained(key, selected, listed, Delete(x))
    requires n < |Writes(inv)|
    ensures Contained(key, selected, listed, Writes(inv)[n])
  {
    WriteAt(inv, n);
  }

  /** What contained writes keep: objects at their keys, visibility, and unlisted objects. */
  ghost predicate Keeps<T(!new)>(key: T -> string, selected: T -> bool, store: Store<T>, s: Store<T>) {
    && Keyed(key, s)
    && (forall k :: k in s ==> selected(s[k]) || (k in store && s[k] == store[k]))
    && (forall k :: k in store && !selected(store[k]) ==> k in s && s[k] == store[k])
  }

  lemma {:induction false} ContainedKeep<T(!new)>(key: T -> string, selected: T -> bool, store: Store<T>,
      ws: seq<Write<T>>)
    requires Keyed(key, store)
    requires forall i :: 0 <= i < |ws| ==> Contained(key, selected, Selected(selected, store), ws[i])
    ensures var s := Exec(key, store, ws); s.Some? ==> Keeps(key, selected, store, s.value)
    decreases |ws|
  {
    if ws != [] {
      ContainedKeep(key, selected, store, ws[..|ws| - 1]);
      var w := ws[|ws| - 1];
      assert Contained(key, selected, Selected(selected, store), w);
      var s := Exec(key, store, ws[..|ws| - 1]);
      if s.Some? { ContainedStep(key, selected, store, s.value, w); }
    }
  }

  lemma ContainedStep<T(!new)>(key: T -> string, selected: T -> bool, store: Store<T>, s: Store<T>, w: Write<T>)
    requires Keeps(key, selected, store, s) && Contained(key, selected, Selected(selected, store), w)
    ensures var r := Exec1(key, s, w); r.Some? ==> Keeps(key, selected, store, r.value)
  {
  }

  /**
   A pass cut short after any of its writes leaves objects at their keys, keeps what exists at
   any set of keys visible, and never touches an object the List does not show.
   */
  lemma AbortedPass<T(!new)>(kind: Kind<T>, selected: T -> bool, store: Store<T>, want: map<string, T>,
      inv: Inventory<T>, n: nat)
    requires Lawful(kind, selected) && Wanted(kind, selected, want) && Keyed(kind.key, store)
    requires IsInventory(kind, Selected(selected, store), want, inv) && n <= |Writes(inv)|
    ensures var s := Exec(kind.key, store, Writes(inv)[..n]); s.Some? ==> Keeps(kind.key, selected, store, s.value)
  {
    var listed, ws := Selected(selected, store), Writes(inv)[..n];
    AllContained(kind, selected, listed, want, inv);
    forall i | 0 <= i < n ensures Contained(kind.key, selected, listed, ws[i]) {
      WritesContained(kind.key, selected, listed, inv, i);
    }
    ContainedKeep(kind.key, selected, store, ws);
  }

  /** A pass, and how many of its writes got through. */
  datatype Pass<T> = Pass(want: map<string, T>, inv: Inventory<T>, n: nat)

  /** From `store`, the passes in turn, each cut short anywhere, lead to `final`. */
  ghost predicate Passes<T>(kind: Kind<T>, selected: T -> bool, store: Store<T>, passes: seq<Pass<T>>, final: Store<T>)
    decreases |passes|
  {
    if passes == [] then final == store
    else
      var p := passes[0];
      && Wanted(kind, selected, p.want)
      && IsInventory(kind, Selected(selected, store), p.want, p.inv) && p.n <= |Writes(p.inv)|
      && var s := Exec(kind.key, store, Writes(p.inv)[..p.n]);
         s.Some? && Passes(kind, selected, s.value, passes[1..], final)
  }

  lemma {:induction false} PassesKeep<T(!new)>(kind: Kind<T>, selected: T -> bool, store: Store<T>,
      passes: seq<Pass<T>>,
      final: Store<T>)
    requires Lawful(kind, selected) && Keyed(kind.key, store) && Passes(kind, selected, store, passes, final)
    ensures Keeps(kind.key, selected, store, final)
    decreases |passes|
  {
    if passes != [] {
      var p := passes[0];
      AbortedPass(kind, selected, store, p.want, p.inv, p.n);
      PassesKeep(kind, selected, Exec(kind.key, store, Writes(p.inv)[..p.n]).value, passes[1..], final);
    }
  }

  /**
   Self-stabilisation. After any number of passes, each for its own desired objects and each
   cut short at any write, one pass without failures leaves exactly the desired keys selected,
   provided what existed at a desired key in the beginning was visible; without that, no pass
   ever gets through all of its writes.
   */
  lemma SelfStabilising<T(!new)>(kind: Kind<T>, selected: T -> bool, store: Store<T>, passes: seq<Pass<T>>,
      final: Store<T>, want: map<string, T>, inv: Inventory<T>)
    requires Lawful(kind, selected) && Keyed(kind.key, store) && Wanted(kind, selected, want)
    requires Passes(kind, selected, store, passes, final)
    requires IsInventory(kind, Selected(selected, final), want, inv)
    ensures var r := Exec(kind.key, final, Writes(inv));
            && (r.Some? <==> Visible(selected, store, want))
            && (r.Some? ==> Selected(selected, r.value).Keys == want.Keys)
  {
    PassesKeep(kind, selected, store, passes, final);
    PassReachesTarget(kind, selected, final, want, inv);
    if Visible(selected, store, want) {
      TargetIsDesired(kind, selected, final, want);
    } else {
      var k :| k in want && k in store && !selected(store[k]);
      assert !selected(final[k]);
    }
  }

  // --- Objects the List does not show ------------------------------------------------------

  lemma UpdatesListed<T(!new)>(kind: Kind<T>, listed: Store<T>, want: map<string, T>, update: seq<T>, x: T)
    requires Enumerates(kind.key, update, Both(kind, listed, want)) && x in update
    ensures kind.key(x) in listed
  {
    EnumeratesMembers(kind.key, update, Both(kind, listed, want), x);
  }

  lemma DeletesListed<T(!new)>(kind: Kind<T>, listed: Store<T>, want: map<string, T>, delete: seq<T>, x: T)
    requires Enumerates(kind.key, delete, listed - want.Keys) && x in delete
    ensures kind.key(x) in listed
  {
    EnumeratesMembers(kind.key, delete, listed - want.Keys, x);
  }

  lemma OnlyListed<T(!new)>(kind: Kind<T>, listed: Store<T>, want: map<string, T>, inv: Inventory<T>)
    requires IsInventory(kind, listed, want, inv)
    ensures forall x :: x in inv.update || x in inv.delete ==> kind.key(x) in listed
  {
    forall x | x in inv.update ensures kind.key(x) in listed { UpdatesListed(kind, listed, want, inv.update, x); }
    forall x | x in inv.delete ensures kind.key(x) in listed { DeletesListed(kind, listed, want, inv.delete, x); }
  }

  /** Only listed objects are updated or deleted, whatever is desired. */
  lemma WritesTouchListed<T(!new)>(key: T -> string, listed: Store<T>, inv: Inventory<T>, n: nat)
    requires (forall x :: x in inv.update || x in inv.delete ==> key(x) in listed) && n < |Writes(inv)|
    ensures var w := Writes(inv)[n]; w.Create? || key(w.obj) in listed
  {
    WriteAt(inv, n);
  }

  ghost predicate KeepsUnlisted<T(!new)>(key: T -> string, selected: T -> bool, store: Store<T>, s: Store<T>) {
    Keyed(key, s) && forall k :: k in store && !selected(store[k]) ==> k in s && s[k] == store[k]
  }

  lemma {:induction false} TouchListedKeep<T(!new)>(key: T -> string, selected: T -> bool, store: Store<T>,
      ws: seq<Write<T>>)
    requires Keyed(key, store)
    requires forall i :: 0 <= i < |ws| ==> ws[i].Create? || key(ws[i].obj) in Selected(selected, store)
    ensures var s := Exec(key, store, ws); s.Some? ==> KeepsUnlisted(key, selected, store, s.value)
    decreases |ws|
  {
    if ws != [] {
      TouchListedKeep(key, selected, store, ws[..|ws| - 1]);
      var w := ws[|ws| - 1];
      assert w.Create? || key(w.obj) in Selected(selected, store);
    }
  }

  lemma UnlistedKept<T(!new)>(kind: Kind<T>, selected: T -> bool, store: Store<T>, want: map<string, T>,
      inv: Inventory<T>, n: nat)
    requires Keyed(kind.key, store)
    requires IsInventory(kind, Selected(selected, store), want, inv) && n <= |Writes(inv)|
    ensures var s := Exec(kind.key, store, Writes(inv)[..n]);
            s.Some? ==> KeepsUnlisted(kind.key, selected, store, s.value)
  {
    var listed, ws := Selected(selected, store), Writes(inv)[..n];
    OnlyListed(kind, listed, want, inv);
    forall i | 0 <= i < n ensures ws[i].Create? || kind.key(ws[i].obj) in listed {
      WritesTouchListed(kind.key, listed, inv, i);
    }
    TouchListedKeep(kind.key, selected, store, ws);
  }

  /** Passes for any desired objects at all, each cut short anywhere. */
  ghost predicate AnyPasses<T>(kind: Kind<T>, selected: T -> bool, store: Store<T>, passes: seq<Pass<T>>,
      final: Store<T>)
    decreases |passes|
  {
    if passes == [] then final == store
    else
      var p := passes[0];
      && IsInventory(kind, Selected(selected, store), p.want, p.inv) && p.n <= |Writes(p.inv)|
      && var s := Exec(kind.key, store, Writes(p.inv)[..p.n]);
         s.Some? && AnyPasses(kind, selected, s.value, passes[1..], final)
  }

  lemma {:induction false} UnlistedStay<T(!new)>(kind: Kind<T>, selected: T -> bool, store: Store<T>,
      passes: seq<Pass<T>>, final: Store<T>)
    requires Keyed(kind.key, store) && AnyPasses(kind, selected, store, passes, final)
    ensures KeepsUnlisted(kind.key, selected, store, final)
    decreases |passes|
  {
    if passes != [] {
      var p := passes[0];
      UnlistedKept(kind, selected, store, p.want, p.inv, p.n);
      UnlistedStay(kind, selected, Exec(kind.key, store, Writes(p.inv)[..p.n]).value, passes[1..], final);
    }
  }
}
