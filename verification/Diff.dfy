/**
 The three-way diff that every per-kind inventory makes (pkg/inventory), on objects of any
 kind: listed objects against desired ones, both as maps from key to object.
 */
module Diff {
  datatype Inventory<T> = Inventory(create: seq<T>, update: seq<T>, delete: seq<T>)

  /** What distinguishes one kind of object from another. */
  datatype Kind<!T> = Kind(key: T -> string, merge: (T, T) -> T)

  /** The objects by key; of two with the same key the later one stays. */
  function ByKey<T>(key: T -> string, s: seq<T>): map<string, T> {
    if s == [] then map[]
    else ByKey(key, s[..|s| - 1])[key(s[|s| - 1]) := s[|s| - 1]]
  }

  lemma {:induction false} ByKeyIsKeyed<T>(key: T -> string, s: seq<T>)
    ensures Keyed(key, ByKey(key, s)) && |ByKey(key, s)| <= |s|
    ensures forall k :: k in ByKey(key, s) ==> ByKey(key, s)[k] in s
  {
    if s != [] {
      var x, rest := s[|s| - 1], s[..|s| - 1];
      ByKeyIsKeyed(key, rest);
      assert ByKey(key, s).Keys == ByKey(key, rest).Keys + {key(x)};
    }
  }

  lemma ByKeyAppend<T>(key: T -> string, s: seq<T>, x: T)
    ensures ByKey(key, s + [x]) == ByKey(key, s)[key(x) := x]
  {
    assert (s + [x])[..|s|] == s;
  }

  /** The list holds every object of the map, each once. */
  ghost predicate Enumerates<T>(key: T -> string, s: seq<T>, m: map<string, T>) { ByKey(key, s) == m && |s| == |m| }

  /** Every object sits at its own key. */
  ghost predicate Keyed<T>(key: T -> string, m: map<string, T>) { forall k :: k in m ==> key(m[k]) == k }

  function Both<T>(kind: Kind<T>, existing: map<string, T>, desired: map<string, T>): map<string, T> {
    map k | k in desired && k in existing :: kind.merge(existing[k], desired[k])
  }

  /** Created is what is only desired, deleted what only exists, updated what is in both. */
  ghost predicate IsInventory<T>(kind: Kind<T>, existing: map<string, T>, desired: map<string, T>, inv: Inventory<T>) {
    && Enumerates(kind.key, inv.create, desired - existing.Keys)
    && Enumerates(kind.key, inv.update, Both(kind, existing, desired))
    && Enumerates(kind.key, inv.delete, existing - desired.Keys)
  }

  lemma EnumeratesAppend<T>(key: T -> string, s: seq<T>, m: map<string, T>, x: T)
    requires Enumerates(key, s, m) && key(x) !in m
    ensures Enumerates(key, s + [x], m[key(x) := x])
  {
    ByKeyAppend(key, s, x);
    assert m[key(x) := x].Keys == m.Keys + {key(x)};
    assert |m[key(x) := x].Keys| == |m.Keys| + 1;
  }

  lemma EnumeratesOneMore<T>(key: T -> string, s: seq<T>, m: map<string, T>, todo: set<string>, k: string)
    requires Enumerates(key, s, m - todo) && Keyed(key, m) && k in todo && k in m
    ensures Enumerates(key, s + [m[k]], m - (todo - {k}))
  {
    EnumeratesAppend(key, s, m - todo, m[k]);
    assert m - (todo - {k}) == (m - todo)[k := m[k]];
  }

  /** Keys of an enumeration are distinct. */
  lemma {:induction false} EnumeratesPrefix<T>(key: T -> string, s: seq<T>, m: map<string, T>)
    requires Enumerates(key, s, m) && s != []
    ensures var last := s[|s| - 1]; var rest := s[..|s| - 1];
            Enumerates(key, rest, ByKey(key, rest)) && key(last) !in ByKey(key, rest)
            && m == ByKey(key, rest)[key(last) := last] && key(last) in m
  {
    var last, rest := s[|s| - 1], s[..|s| - 1];
    var before := ByKey(key, rest);
    ByKeyIsKeyed(key, rest);
    assert m.Keys == before.Keys + {key(last)};
    assert |m.Keys| == |before.Keys| + (if key(last) in before then 0 else 1);
  }

  /** deploymentMap, serviceMap: the loop that fills the map. */
  method MapOf<T>(key: T -> string, objects: seq<T>) returns (m: map<string, T>)
    ensures m == ByKey(key, objects)
  {
    m := map[];
    for i := 0 to |objects|
      invariant m == ByKey(key, objects[..i])
    {
      assert objects[..i + 1] == objects[..i] + [objects[i]];
      ByKeyAppend(key, objects[..i], objects[i]);
      m := m[key(objects[i]) := objects[i]];
    }
    assert objects[..|objects|] == objects;
  }

  /** deploymentList, serviceList: the values, in whatever order the map is ranged over. */
  method ListOf<T>(key: T -> string, m: map<string, T>) returns (l: seq<T>)
    requires Keyed(key, m)
    ensures Enumerates(key, l, m)
  {
    l := [];
    var todo := m.Keys;
    assert m - todo == map[];
    while todo != {}
      invariant todo <= m.Keys
      invariant Enumerates(key, l, m - todo)
      decreases |todo|
    {
      var k :| k in todo;
      EnumeratesOneMore(key, l, m, todo, k);
      l := l + [m[k]];
      todo := todo - {k};
    }
    assert m - {} == m;
  }

  /** Two enumerations of the same map hold the same objects. */
  lemma EnumeratesMembers<T>(key: T -> string, s: seq<T>, m: map<string, T>, x: T)
    requires Enumerates(key, s, m)
    ensures x in s <==> key(x) in m && m[key(x)] == x
    decreases |s|
  {
    if s != [] {
      EnumeratesPrefix(key, s, m);
      var last, rest := s[|s| - 1], s[..|s| - 1];
      assert s == rest + [last];
      EnumeratesMembers(key, rest, ByKey(key, rest), x);
    }
  }

  // --- The deleting loop -------------------------------------------------------------------

  /** The loop over the desired map, with the keys in `todo` still to come. */
  ghost predicate Progress<T>(kind: Kind<T>, existing: map<string, T>, desired: map<string, T>, todo: set<string>,
                              mcreate: map<string, T>, mdelete: map<string, T>, update: seq<T>) {
    && todo <= desired.Keys
    && mcreate == desired - (existing.Keys - todo)
    && mdelete == existing - (desired.Keys - todo)
    && Enumerates(kind.key, update, Both(kind, existing, desired - todo))
  }

  lemma ProgressStart<T>(kind: Kind<T>, existing: map<string, T>, desired: map<string, T>)
    ensures Progress(kind, existing, desired, desired.Keys, desired, existing, [])
  {
    assert desired - (existing.Keys - desired.Keys) == desired;
    assert existing - (desired.Keys - desired.Keys) == existing;
    assert Both(kind, existing, desired - desired.Keys) == map[];
  }

  lemma BothOneMore<T>(kind: Kind<T>, existing: map<string, T>, desired: map<string, T>, todo: set<string>, k: string)
    requires k in todo && k in existing && k in desired
    ensures k !in Both(kind, existing, desired - todo)
    ensures Both(kind, existing, desired - (todo - {k}))
         == Both(kind, existing, desired - todo)[k := kind.merge(existing[k], desired[k])]
  {
  }

  lemma OneLess<T>(m: map<string, T>, others: set<string>, todo: set<string>, k: string)
    requires k in todo && k in others
    ensures (m - (others - todo)) - {k} == m - (others - (todo - {k}))
  {
    assert others - (todo - {k}) == (others - todo) + {k};
  }

  /** A key in both maps: its object goes to the updates and out of the other two. */
  lemma ProgressUpdate<T>(kind: Kind<T>, existing: map<string, T>, desired: map<string, T>, todo: set<string>,
                          mcreate: map<string, T>, mdelete: map<string, T>, update: seq<T>, k: string)
    requires Progress(kind, existing, desired, todo, mcreate, mdelete, update) && k in todo && k in existing
    requires kind.key(kind.merge(existing[k], desired[k])) == k
    ensures k in mcreate && k in mdelete && mcreate[k] == desired[k] && mdelete[k] == existing[k]
    ensures Progress(kind, existing, desired, todo - {k}, mcreate - {k}, mdelete - {k},
                     update + [kind.merge(existing[k], desired[k])])
  {
    BothOneMore(kind, existing, desired, todo, k);
    EnumeratesAppend(kind.key, update, Both(kind, existing, desired - todo), kind.merge(existing[k], desired[k]));
    OneLess(desired, existing.Keys, todo, k);
    OneLess(existing, desired.Keys, todo, k);
  }

  lemma BothNoMore<T>(kind: Kind<T>, existing: map<string, T>, desired: map<string, T>, todo: set<string>, k: string)
    requires k in todo && k !in existing
    ensures Both(kind, existing, desired - (todo - {k})) == Both(kind, existing, desired - todo)
  {
  }

  lemma NoneLess<T>(m: map<string, T>, others: set<string>, todo: set<string>, k: string)
    requires k !in m
    ensures m - (others - (todo - {k})) == m - (others - todo)
  {
  }

  lemma ProgressSkip<T>(kind: Kind<T>, existing: map<string, T>, desired: map<string, T>, todo: set<string>,
                        mcreate: map<string, T>, mdelete: map<string, T>, update: seq<T>, k: string)
    requires Progress(kind, existing, desired, todo, mcreate, mdelete, update) && k in todo && k !in existing
    ensures k in mcreate && k !in mdelete && mcreate[k] == desired[k]
    ensures Progress(kind, existing, desired, todo - {k}, mcreate, mdelete, update)
  {
    BothNoMore(kind, existing, desired, todo, k);
    assert existing.Keys - (todo - {k}) == existing.Keys - todo;
    NoneLess(existing, desired.Keys, todo, k);
  }

  lemma ProgressEnd<T>(kind: Kind<T>, existing: map<string, T>, desired: map<string, T>,
                       mcreate: map<string, T>, mdelete: map<string, T>, update: seq<T>)
    requires Progress(kind, existing, desired, {}, mcreate, mdelete, update)
    ensures mcreate == desired - existing.Keys && mdelete == existing - desired.Keys
    ensures Enumerates(kind.key, update, Both(kind, existing, desired))
  {
    NoneLeft(desired);
    assert existing.Keys - {} == existing.Keys && desired.Keys - {} == desired.Keys;
  }

  lemma NoneLeft<T>(m: map<string, T>)
    ensures m - {} == m
  {
  }
}
