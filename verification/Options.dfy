/**
 Option blocks (apis/v1/options.go): nested user input is flattened to dotted keys and
 printed as command-line arguments. Every loop that ranges over a Go map picks its next
 key with `:|`, so a contract proved here holds for every range order.
 */
module Options {
  import opened Text

  /** The dynamic value of an `interface{}` that reaches the option parser. */
  datatype Node =
    | Null                          // JSON null, a nil interface
    | Str(s: string)                // string
    | Scalar(shown: string)         // number or boolean, with its "%v" text
    | Strings(ss: seq<string>)      // []string, as GenericMap hands back
    | Items(vs: seq<Node>)          // []interface{}, as JSON decoding produces
    | Tree(kids: map<string, Node>) // map[string]interface{}

  /** A stored option: one string, or a list of strings. */
  datatype Value = One(s: string) | Many(ss: seq<string>)

  type Opts = map<string, Value>

  // --- What a tree of options means --------------------------------------------------------

  predicate AllStr(vs: seq<Node>) { forall v :: v in vs ==> v.Str? }

  /** No list below this node holds anything but strings. */
  predicate WellTyped(n: Node)
    decreases n
  {
    match n
    case Items(vs) => AllStr(vs)
    case Tree(kids) => forall k :: k in kids ==> WellTyped(kids[k])
    case _ => true
  }

  function Texts(vs: seq<Node>): (ss: seq<string>)
    requires AllStr(vs)
    ensures |ss| == |vs| && forall i :: 0 <= i < |vs| ==> ss[i] == vs[i].s
  {
    seq(|vs|, i requires 0 <= i < |vs| => vs[i].s)
  }

  /** Go's "%v" of a []string */
  function Bracketed(ss: seq<string>): string { "[" + Join(ss, ' ') + "]" }

  /** The (dotted path, value) pairs below a node reached by `key`. */
  ghost function Leaves(key: string, n: Node): set<(string, Value)>
    requires WellTyped(n)
    decreases n
  {
    match n
    case Null => {}
    case Str(s) => {(key, One(s))}
    case Scalar(t) => {(key, One(t))}
    case Strings(ss) => {(key, One(Bracketed(ss)))}
    case Items(vs) => {(key, Many(Texts(vs)))}
    case Tree(kids) => set k, p | k in kids && p in Leaves(key + "." + k, kids[k]) :: p
  }

  predicate WellTypedAll(entries: map<string, Node>) { forall k :: k in entries ==> WellTyped(entries[k]) }

  ghost function AllLeaves(entries: map<string, Node>): set<(string, Value)>
    requires WellTypedAll(entries)
  {
    set k, p | k in entries && p in Leaves(k, entries[k]) :: p
  }

  ghost function Paths(ls: set<(string, Value)>): set<string> { set p | p in ls :: p.0 }

  /** No two leaves with different values share a dotted path. */
  ghost predicate Unambiguous(ls: set<(string, Value)>) {
    forall p, q :: p in ls && q in ls && p.0 == q.0 ==> p.1 == q.1
  }

  /** The flat option block an unambiguous tree stands for. */
  ghost function Flat(entries: map<string, Node>): Opts
    requires WellTypedAll(entries)
  {
    FlatOf(AllLeaves(entries))
  }

  ghost function FlatOf(ls: set<(string, Value)>): Opts { map path | path in Paths(ls) :: ValueAt(ls, path) }

  ghost function ValueAt(ls: set<(string, Value)>, path: string): Value
    requires path in Paths(ls)
  {
    var p :| p in ls && p.0 == path; p.1
  }

  /** `after` is `before` with, at each path of `ls`, the value of some leaf with that path. */
  ghost predicate Overwrites(before: Opts, ls: set<(string, Value)>, after: Opts) {
    && after.Keys == before.Keys + Paths(ls)
    && (forall k :: k in after && k in Paths(ls) ==> (k, after[k]) in ls)
    && (forall k :: k in after && k !in Paths(ls) ==> k in before && after[k] == before[k])
  }

  // --- parse and entry ---------------------------------------------------------------------

  /** `entry`: writes the leaves below `n` over `entries`; None is the error return. */
  method Entry(entries: Opts, key: string, n: Node) returns (r: Option<Opts>)
    ensures r.None? <==> !WellTyped(n)
    ensures r.Some? ==> Overwrites(entries, Leaves(key, n), r.value)
    decreases n
  {
    match n
    case Null => r := Some(entries);
    case Str(s) => r := Some(entries[key := One(s)]);
    case Scalar(t) => r := Some(entries[key := One(t)]);
    case Strings(ss) => r := Some(entries[key := One(Bracketed(ss))]);
    case Items(vs) =>
      var values: seq<string> := [];
      for i := 0 to |vs|
        invariant AllStr(vs[..i]) && values == Texts(vs[..i])
      {
        if !vs[i].Str? { return None; }
        values := values + [vs[i].s];
        assert vs[..i + 1] == vs[..i] + [vs[i]];
      }
      assert vs[..|vs|] == vs;
      r := Some(entries[key := Many(values)]);
    case Tree(kids) =>
      var out := entries;
      var todo := kids.Keys;
      ghost var done: set<(string, Value)> := {};
      while todo != {}
        invariant todo <= kids.Keys
        invariant forall k :: k in kids && k !in todo ==> WellTyped(kids[k])
        invariant forall p :: p in done <==> exists k :: k in kids && k !in todo && p in Leaves(key + "." + k, kids[k])
        invariant Overwrites(entries, done, out)
        decreases todo
      {
        var k :| k in todo;
        var step := Entry(out, key + "." + k, kids[k]);
        if step.None? { return None; }
        OverwritesTwice(entries, done, out, Leaves(key + "." + k, kids[k]), step.value);
        done := done + Leaves(key + "." + k, kids[k]);
        todo := todo - {k};
        out := step.value;
      }
      assert done == Leaves(key, n);
      r := Some(out);
  }

  lemma OverwritesTwice(a: Opts, l1: set<(string, Value)>, b: Opts, l2: set<(string, Value)>, c: Opts)
    requires Overwrites(a, l1, b) && Overwrites(b, l2, c)
    ensures Overwrites(a, l1 + l2, c)
  {
    assert Paths(l1 + l2) == Paths(l1) + Paths(l2);
  }

  /** `parse`, with the values built so far thrown away on an error as the source does. */
  method Parse(entries: map<string, Node>) returns (r: Option<Opts>)
    ensures r.None? <==> !WellTypedAll(entries)
    ensures r.Some? ==> Overwrites(map[], AllLeaves(entries), r.value)
    ensures r.Some? && Unambiguous(AllLeaves(entries)) ==> r.value == Flat(entries)
  {
    var out: Opts := map[];
    var todo := entries.Keys;
    ghost var done: set<(string, Value)> := {};
    while todo != {}
      invariant todo <= entries.Keys
      invariant forall k :: k in entries && k !in todo ==> WellTyped(entries[k])
      invariant forall p :: p in done <==> exists k :: k in entries && k !in todo && p in Leaves(k, entries[k])
      invariant Overwrites(map[], done, out)
      decreases todo
    {
      var k :| k in todo;
      var step := Entry(out, k, entries[k]);
      if step.None? { return None; }
      OverwritesTwice(map[], done, out, Leaves(k, entries[k]), step.value);
      done := done + Leaves(k, entries[k]);
      todo := todo - {k};
      out := step.value;
    }
    assert done == AllLeaves(entries);
    r := Some(out);
    if Unambiguous(AllLeaves(entries)) { OverwritesDetermined(AllLeaves(entries), out, Flat(entries)); }
  }

  /** Two runs over the same unambiguous leaves end in the same block. */
  lemma OverwritesDetermined(ls: set<(string, Value)>, a: Opts, b: Opts)
    requires Unambiguous(ls)
    requires Overwrites(map[], ls, a) && Overwrites(map[], ls, b)
    ensures a == b
  {
    forall k | k in a ensures k in b && a[k] == b[k] {
      assert (k, a[k]) in ls && (k, b[k]) in ls;
    }
  }

  /** NewOptions drops the parse error, which leaves an empty block. */
  method NewOptions(entries: map<string, Node>) returns (o: Opts)
    ensures !WellTypedAll(entries) ==> o == map[]
    ensures WellTypedAll(entries) ==> Overwrites(map[], AllLeaves(entries), o)
    ensures WellTypedAll(entries) && Unambiguous(AllLeaves(entries)) ==> o == Flat(entries)
  {
    var r := Parse(entries);
    o := if r.Some? then r.value else map[];
  }

  // --- GenericMap and the round trip -------------------------------------------------------

  function Generic(v: Value): Node {
    match v case One(s) => Str(s) case Many(ss) => Strings(ss)
  }

  method GenericMap(o: Opts) returns (m: map<string, Node>)
    ensures m.Keys == o.Keys && forall k :: k in o ==> m[k] == Generic(o[k])
  {
    m := map[];
    var todo := o.Keys;
    while todo != {}
      invariant todo <= o.Keys && m.Keys == o.Keys - todo
      invariant forall k :: k in m ==> m[k] == Generic(o[k])
      decreases todo
    {
      var k :| k in todo;
      m := m[k := Generic(o[k])];
      todo := todo - {k};
    }
  }

  function Shown(v: Value): string {
    match v case One(s) => s case Many(ss) => Bracketed(ss)
  }

  /** What a block becomes when it goes through GenericMap and NewOptions. */
  function Reparse(o: Opts): Opts { map k | k in o :: One(Shown(o[k])) }

  ghost predicate Single(o: Opts) { forall k :: k in o ==> o[k].One? }

  method RoundTrip(o: Opts) returns (r: Opts)
    ensures r == Reparse(o)
  {
    var m := GenericMap(o);
    r := NewOptions(m);
    GenericLeaves(o, m);
  }

  ghost function ShownLeaves(o: Opts): set<(string, Value)> { set k | k in o :: (k, One(Shown(o[k]))) }

  lemma GenericLeaf(k: string, v: Value)
    ensures WellTyped(Generic(v)) && Leaves(k, Generic(v)) == {(k, One(Shown(v)))}
  {
  }

  lemma GenericAllLeaves(o: Opts, m: map<string, Node>)
    requires m.Keys == o.Keys && forall k :: k in o ==> m[k] == Generic(o[k])
    ensures WellTypedAll(m) && AllLeaves(m) == ShownLeaves(o)
  {
    forall k | k in m
      ensures WellTyped(m[k]) && Leaves(k, m[k]) == {(k, One(Shown(o[k])))}
    {
      GenericLeaf(k, o[k]);
    }
  }

  lemma ShownLeavesFlat(o: Opts)
    ensures Unambiguous(ShownLeaves(o)) && FlatOf(ShownLeaves(o)) == Reparse(o)
  {
    forall k | k in o
      ensures k in Paths(ShownLeaves(o)) && ValueAt(ShownLeaves(o), k) == One(Shown(o[k]))
    {
      assert (k, One(Shown(o[k]))) in ShownLeaves(o);
    }
  }

  lemma GenericLeaves(o: Opts, m: map<string, Node>)
    requires m.Keys == o.Keys && forall k :: k in o ==> m[k] == Generic(o[k])
    ensures WellTypedAll(m) && Unambiguous(AllLeaves(m)) && Flat(m) == Reparse(o)
  {
    GenericAllLeaves(o, m);
    ShownLeavesFlat(o);
  }

  /** The round trip is the identity exactly on blocks without list-valued options. */
  lemma ReparseIdentityIff(o: Opts)
    ensures Reparse(o) == o <==> Single(o)
    ensures Single(Reparse(o)) && Reparse(Reparse(o)) == Reparse(o)
  {
    if Reparse(o) == o {
      forall k | k in o ensures o[k].One? { assert Reparse(o)[k] == o[k]; }
    }
  }

  // --- Filter and StringMap ----------------------------------------------------------------

  predicate Kept(prefix: string, k: string) { prefix + "." <= k || prefix + "-archive." <= k }

  function Filtered(o: Opts, prefix: string): Opts { map k | k in o && Kept(prefix, k) :: o[k] }

  method Filter(o: Opts, prefix: string) returns (r: Opts)
    ensures r == Filtered(o, prefix)
    ensures forall k :: k in r <==> k in o && (prefix + "." <= k || prefix + "-archive." <= k)
    ensures forall k :: k in r ==> r[k] == o[k]
  {
    r := map[];
    var todo := o.Keys;
    while todo != {}
      invariant todo <= o.Keys
      invariant r == map k | k in o.Keys - todo && Kept(prefix, k) :: o[k]
      decreases todo
    {
      var k :| k in todo;
      if Kept(prefix, k) { r := r[k := o[k]]; }
      todo := todo - {k};
    }
  }

  function Lookup(o: Opts, k: string): string { if k in o && o[k].One? then o[k].s else "" }

  method StringMap(o: Opts) returns (m: map<string, string>)
    ensures m == map k | k in o && o[k].One? :: o[k].s
  {
    m := map[];
    var todo := o.Keys;
    while todo != {}
      invariant todo <= o.Keys
      invariant m == map k | k in o.Keys - todo && o[k].One? :: o[k].s
      decreases todo
    {
      var k :| k in todo;
      if o[k].One? { m := m[k := o[k].s]; }
      todo := todo - {k};
    }
  }

  // --- ToArgs ------------------------------------------------------------------------------

  function Flag(k: string, v: string): string { "--" + k + "=" + v }

  function Flags(k: string, v: Value): (r: seq<string>)
    ensures forall a :: a in r ==> "--" + k + "=" <= a
  {
    match v
    case One(s) => [Flag(k, s)]
    case Many(ss) => seq(|ss|, i requires 0 <= i < |ss| => Flag(k, ss[i]))
  }

  /** The arguments of the options in `keys`, as a bag. */
  ghost function FlagBag(keys: set<string>, o: Opts): multiset<string>
    requires keys <= o.Keys
  {
    if keys == {} then multiset{}
    else var k :| k in keys; multiset(Flags(k, o[k])) + FlagBag(keys - {k}, o)
  }

  lemma {:induction false} FlagBagRemove(keys: set<string>, k: string, o: Opts)
    requires k in keys && keys <= o.Keys
    ensures FlagBag(keys, o) == multiset(Flags(k, o[k])) + FlagBag(keys - {k}, o)
  {
    var c :| c in keys && FlagBag(keys, o) == multiset(Flags(c, o[c])) + FlagBag(keys - {c}, o);
    if c != k {
      FlagBagRemove(keys - {c}, k, o);
      FlagBagRemove(keys - {k}, c, o);
      assert keys - {c} - {k} == keys - {k} - {c};
    }
  }

  /** The body of ToArgs's loop: one flag, or one per list element in list order. */
  method FlagsOf(k: string, v: Value) returns (flags: seq<string>)
    ensures flags == Flags(k, v)
  {
    match v
    case One(s) => flags := [Flag(k, s)];
    case Many(ss) =>
      flags := [];
      for i := 0 to |ss|
        invariant flags == Flags(k, Many(ss))[..i]
      {
        flags := flags + [Flag(k, ss[i])];
      }
  }

  /** The arguments of the options in the order of `keys`. */
  function PrintedBy(o: Opts, keys: seq<string>): seq<string>
    requires forall k :: k in keys ==> k in o
  {
    if keys == [] then [] else PrintedBy(o, keys[..|keys| - 1]) + Flags(keys[|keys| - 1], o[keys[|keys| - 1]])
  }

  /** Every key once. */
  ghost predicate IsOrder(keys: seq<string>, all: set<string>) {
    (forall k :: k in keys <==> k in all) && forall i, j :: 0 <= i < j < |keys| ==> keys[i] != keys[j]
  }

  /** The arguments are the options printed in some order of their keys. */
  ghost predicate Printing(o: Opts, args: seq<string>) {
    exists keys :: IsOrder(keys, o.Keys) && args == PrintedBy(o, keys)
  }

  method ToArgs(o: Opts) returns (args: seq<string>)
    ensures Printing(o, args)
  {
    args := [];
    var todo := o.Keys;
    ghost var keys: seq<string> := [];
    while todo != {}
      invariant todo <= o.Keys && IsOrder(keys, o.Keys - todo) && args == PrintedBy(o, keys)
      decreases todo
    {
      var k :| k in todo;
      var flags := FlagsOf(k, o[k]);
      args := args + flags;
      assert (keys + [k])[..|keys|] == keys;
      keys := keys + [k];
      todo := todo - {k};
    }
    assert o.Keys - {} == o.Keys;
  }

  /** The same, as far as it does not matter which option comes first. */
  method ToArgsInAnyOrder(o: Opts) returns (args: seq<string>)
    ensures multiset(args) == FlagBag(o.Keys, o)
  {
    args := ToArgs(o);
    PrintingBag(o, args);
  }

  lemma {:induction false} PrintedBag(o: Opts, keys: seq<string>, all: set<string>)
    requires all <= o.Keys && IsOrder(keys, all)
    ensures multiset(PrintedBy(o, keys)) == FlagBag(all, o)
    decreases |keys|
  {
    if keys == [] {
      assert all == {};
    } else {
      var n := |keys| - 1;
      var k := keys[n];
      assert k in all;
      forall x ensures x in keys[..n] <==> x in all - {k} {
        if x in all - {k} {
          var i :| 0 <= i < |keys| && keys[i] == x;
          assert i < n && keys[..n][i] == x;
        }
      }
      PrintedBag(o, keys[..n], all - {k});
      FlagBagRemove(all, k, o);
    }
  }

  lemma PrintingBag(o: Opts, args: seq<string>)
    requires Printing(o, args)
    ensures multiset(args) == FlagBag(o.Keys, o)
  {
    var keys :| IsOrder(keys, o.Keys) && args == PrintedBy(o, keys);
    PrintedBag(o, keys, o.Keys);
  }

  lemma {:induction false} FlagBagMember(keys: set<string>, o: Opts, a: string)
    requires keys <= o.Keys
    ensures a in FlagBag(keys, o) <==> exists k :: k in keys && a in Flags(k, o[k])
  {
    if keys != {} {
      var c :| c in keys && FlagBag(keys, o) == multiset(Flags(c, o[c])) + FlagBag(keys - {c}, o);
      FlagBagMember(keys - {c}, o, a);
      if k :| k in keys && a in Flags(k, o[k]) {
        assert k == c || k in keys - {c};
      }
    }
  }

  // --- Reading an option back --------------------------------------------------------------

  /** A name `x` whose flag reads like a flag of `k`, because it starts with `k` and '='. */
  predicate Lookalike(k: string, x: string) { k + "=" <= x }

  /** The flags of `x` are found under the prefix of `k`, and there are some. */
  predicate Answers(o: Opts, k: string, x: string) { x in o && (x == k || Lookalike(k, x)) && Flags(x, o[x]) != [] }

  lemma FlagMatchIff(k: string, x: string, v: string)
    requires '=' !in k
    ensures "--" + k + "=" <= Flag(x, v) <==> x == k || Lookalike(k, x)
  {
    var p, f := "--" + k + "=", Flag(x, v);
    if Lookalike(k, x) {
      assert forall i :: 0 <= i < |k| + 1 ==> (k + "=")[i] == x[i];
      assert forall i :: 2 <= i < |p| ==> p[i] == (k + "=")[i - 2] == x[i - 2] == f[i];
    } else if p <= f {
      SamePrefix(k, x, f);
    } else {
      assert x == k ==> f == p + v;
    }
  }

  lemma {:induction false} FoundInFlags(k: string, x: string, v: Value)
    requires '=' !in k
    ensures FindItem("--" + k + "=", Flags(x, v)) ==
              if (x == k || Lookalike(k, x)) && Flags(x, v) != [] then Flags(x, v)[0] else ""
  {
    var p := "--" + k + "=";
    forall i | 0 <= i < |Flags(x, v)| ensures p <= Flags(x, v)[i] <==> x == k || Lookalike(k, x) {
      FlagMatchIff(k, x, if v.One? then v.s else v.ss[i]);
    }
    if !(x == k || Lookalike(k, x)) { FindItemAbsent(p, Flags(x, v)); }
  }

  /** The option is found exactly when some option answers to its name, with the first flag of one that does. */
  lemma {:induction false} FoundInPrinted(o: Opts, keys: seq<string>, k: string)
    requires '=' !in k && forall x :: x in keys ==> x in o
    ensures var r := FindItem("--" + k + "=", PrintedBy(o, keys));
            && (r == "" <==> forall x :: x in keys ==> !Answers(o, k, x))
            && (r != "" ==> exists x :: x in keys && Answers(o, k, x) && r == Flags(x, o[x])[0])
    decreases |keys|
  {
    if keys != [] {
      var n := |keys| - 1;
      FoundInPrinted(o, keys[..n], k);
      FoundInLast(o, keys, k);
      assert forall x :: x in keys <==> x in keys[..n] || x == keys[n];
    }
  }

  lemma FoundInLast(o: Opts, keys: seq<string>, k: string)
    requires '=' !in k && keys != [] && forall x :: x in keys ==> x in o
    ensures var n, p := |keys| - 1, "--" + k + "=";
            var before := FindItem(p, PrintedBy(o, keys[..n]));
            && (Answers(o, k, keys[n]) ==> Flags(keys[n], o[keys[n]])[0] != "")
            && FindItem(p, PrintedBy(o, keys)) ==
                 if before != "" then before else if Answers(o, k, keys[n]) then Flags(keys[n], o[keys[n]])[0] else ""
  {
    var n := |keys| - 1;
    FoundInFlags(k, keys[n], o[keys[n]]);
    FindItemConcat("--" + k + "=", PrintedBy(o, keys[..n]), Flags(keys[n], o[keys[n]]));
    if Answers(o, k, keys[n]) { assert Flags(keys[n], o[keys[n]])[0] == Flag(keys[n], FirstValue(o[keys[n]])); }
  }

  function FirstValue(v: Value): string { match v case One(s) => s case Many(ss) => if ss == [] then "" else ss[0] }

  /** Some printing has the flags of a given option in front. */
  lemma PrintedFirst(o: Opts, x: string) returns (keys: seq<string>)
    requires x in o
    ensures IsOrder(keys, o.Keys) && keys != [] && keys[0] == x
  {
    var rest := SomeOrder(o.Keys - {x});
    keys := [x] + rest;
  }

  lemma {:induction false} SomeOrder(all: set<string>) returns (keys: seq<string>)
    ensures IsOrder(keys, all)
    decreases all
  {
    if all == {} {
      keys := [];
    } else {
      var x :| x in all;
      var rest := SomeOrder(all - {x});
      keys := [x] + rest;
    }
  }

  lemma {:induction false} FirstIsFound(o: Opts, keys: seq<string>, k: string)
    requires '=' !in k && keys != [] && (forall x :: x in keys ==> x in o) && Answers(o, k, keys[0])
    ensures FindItem("--" + k + "=", PrintedBy(o, keys)) == Flags(keys[0], o[keys[0]])[0]
    decreases |keys|
  {
    var n := |keys| - 1;
    FoundInLast(o, keys, k);
    if n == 0 {
      assert PrintedBy(o, keys[..0]) == [];
    } else {
      FirstIsFound(o, keys[..n], k);
      FoundInLast(o, keys[..1], k);
      assert keys[..1][0] == keys[0];
    }
  }

  /**
   Reading an option back from the arguments does not depend on their order: unless some
   option name starts with this one and '=', the first argument for it is its own flag.
   */
  lemma FindOption(o: Opts, args: seq<string>, k: string)
    requires multiset(args) == FlagBag(o.Keys, o)
    requires '=' !in k && forall x :: x in o ==> !Lookalike(k, x)
    ensures k in o && o[k].One? ==> FindItem("--" + k + "=", args) == Flag(k, o[k].s)
    ensures k !in o ==> FindItem("--" + k + "=", args) == ""
  {
    var prefix := "--" + k + "=";
    forall a | a in args && prefix <= a ensures k in o && a in Flags(k, o[k]) {
      assert a in multiset(args);
      FlagBagMember(o.Keys, o, a);
      var x :| x in o && a in Flags(x, o[x]);
      SamePrefix(k, x, a);
    }
    if k !in o {
      FindItemAbsent(prefix, args);
    } else if o[k].One? {
      FlagBagMember(o.Keys, o, Flag(k, o[k].s));
      assert Flag(k, o[k].s) in Flags(k, o[k]);
      assert Flag(k, o[k].s) in multiset(args);
      FindItemUnique(prefix, args, Flag(k, o[k].s));
    }
  }

  lemma SamePrefix(k: string, x: string, a: string)
    requires '=' !in k && !(k + "=" <= x)
    requires "--" + k + "=" <= a && "--" + x + "=" <= a
    ensures k == x
  {
    if |k| < |x| {
      NestedPrefix(k, x, a);
      assert false;
    } else if |x| < |k| {
      NestedPrefix(x, k, a);
      assert false;
    } else {
      assert k == ("--" + k + "=")[2..|k| + 2] == a[2..|k| + 2];
      assert x == ("--" + x + "=")[2..|x| + 2] == a[2..|x| + 2];
    }
  }

  lemma NestedPrefix(k: string, x: string, a: string)
    requires "--" + k + "=" <= a && "--" + x + "=" <= a && |k| < |x|
    ensures k + "=" <= x && '=' in x
  {
    var p, q := "--" + k + "=", "--" + x + "=";
    assert forall i :: 0 <= i <= |k| ==> (k + "=")[i] == p[i + 2] == a[i + 2] == q[i + 2] == x[i];
    assert x[|k|] == '=';
  }

  // --- From user input to the argument list of a container ---------------------------------

  /** The options' flags in one fixed order of the keys. */
  ghost function FlagList(keys: set<string>, o: Opts): (r: seq<string>)
    requires keys <= o.Keys
    ensures multiset(r) == FlagBag(keys, o)
  {
    if keys == {} then []
    else
      var k :| k in keys && FlagBag(keys, o) == multiset(Flags(k, o[k])) + FlagBag(keys - {k}, o);
      Flags(k, o[k]) + FlagList(keys - {k}, o)
  }

  lemma SamePresence(prefix: string, a: seq<string>, b: seq<string>)
    requires prefix != "" && multiset(a) == multiset(b)
    ensures FindItem(prefix, a) == "" <==> FindItem(prefix, b) == ""
  {
    assert forall x :: x in a <==> x in multiset(a);
    assert forall x :: x in b <==> x in multiset(b);
    if exists x :: x in a && prefix <= x {
      FindItemFound(prefix, a);
      FindItemFound(prefix, b);
    } else {
      FindItemAbsent(prefix, a);
      FindItemAbsent(prefix, b);
    }
  }

  const SAMPLING_FILE := "--sampling.strategies-file=" + "/etc/jaeger/sampling/sampling.json"
  const COLLECTOR_TLS := [
    "--collector.grpc.tls.enabled=true", "--collector.grpc.tls.cert=/etc/tls-config/tls.crt",
    "--collector.grpc.tls.key=/etc/tls-config/tls.key"]

  /** sampling.Update, unless the instance names a file of its own. */
  function WithSampling(args: seq<string>, ownFile: bool): seq<string> {
    if ownFile then args else args + [SAMPLING_FILE]
  }

  /** tls.Update; `own` are the collector's arguments alone. */
  function WithCollectorTls(own: seq<string>, args: seq<string>, openShift: bool): seq<string> {
    if FindItem("--collector.grpc.tls.enabled=", own) == "" && openShift
       && FindItem("--reporter.grpc.host-port=", args) == "" then args + COLLECTOR_TLS
    else args
  }

  /** The argument list of a collector and its storage, with no range order in sight. */
  ghost function SortedFlags(main: Opts, extra: Opts, ownFile: bool, openShift: bool): seq<string> {
    var own := FlagList(main.Keys, main);
    Sort(WithCollectorTls(own, WithSampling(own + FlagList(extra.Keys, extra), ownFile), openShift))
  }

  lemma SameAdditions(own: seq<string>, args: seq<string>, own': seq<string>, args': seq<string>, ownFile: bool,
      openShift: bool)
    requires multiset(own) == multiset(own') && multiset(args) == multiset(args')
    ensures multiset(WithCollectorTls(own, WithSampling(args, ownFile), openShift))
         == multiset(WithCollectorTls(own', WithSampling(args', ownFile), openShift))
  {
    SamePresence("--collector.grpc.tls.enabled=", own, own');
    SamePresence("--reporter.grpc.host-port=", WithSampling(args, ownFile), WithSampling(args', ownFile));
  }

  /**
   The collector's arguments: parse both blocks, keep the storage options of the backend in
   use, print, add what the operator adds and sort. Many map ranges happen on the way; the
   result depends on none of them.
   */
  method CollectorArgs(collector: map<string, Node>, storage: map<string, Node>, prefix: string, ownFile: bool,
      openShift: bool)
    returns (args: seq<string>)
    requires WellTypedAll(collector) && Unambiguous(AllLeaves(collector))
    requires WellTypedAll(storage) && Unambiguous(AllLeaves(storage))
    ensures args == SortedFlags(Flat(collector), Filtered(Flat(storage), prefix), ownFile, openShift)
  {
    var c := NewOptions(collector);
    var s := NewOptions(storage);
    var own := ToArgsInAnyOrder(c);
    var kept := Filter(s, prefix);
    var a := ToArgsInAnyOrder(c);
    var b := ToArgsInAnyOrder(kept);
    args := WithCollectorTls(own, WithSampling(a + b, ownFile), openShift);
    ghost var flags := FlagList(c.Keys, c);
    SameAdditions(own, a + b, flags, flags + FlagList(kept.Keys, kept), ownFile, openShift);
    SortOfPermutation(args,
        WithCollectorTls(flags, WithSampling(flags + FlagList(kept.Keys, kept), ownFile), openShift));
    args := Sort(args);
  }
}
