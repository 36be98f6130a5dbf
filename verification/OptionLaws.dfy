/** What nested user input means as options, and which arguments a collector gets for it. */
module OptionLaws {
  import opened Text
  import opened Options

  // --- Nested options ----------------------------------------------------------------------

  /** The node at the end of a path of keys, if there is one. */
  ghost function Follow(n: Node, path: seq<string>): Node
    decreases |path|
  {
    if path == [] then n
    else if n.Tree? && path[0] in n.kids then Follow(n.kids[path[0]], path[1..])
    else Null
  }

  /** The option value of a node that is not a tree: lists of strings stay lists, the rest is printed. */
  ghost predicate Means(n: Node, v: Value) {
    match n
    case Str(s) => v == One(s)
    case Scalar(t) => v == One(t)
    case Strings(ss) => v == One("[" + Join(ss, ' ') + "]")
    case Items(vs) => v.Many? && |v.ss| == |vs| && forall i :: 0 <= i < |vs| ==> vs[i] == Str(v.ss[i])
    case Null => false
    case Tree(_) => false
  }

  ghost predicate LeadsTo(key: string, n: Node, path: seq<string>, p: (string, Value)) {
    p.0 == Join([key] + path, '.') && Means(Follow(n, path), p.1)
  }

  lemma JoinedKeys(key: string, k: string, path: seq<string>)
    ensures Join([key + "." + k] + path, '.') == Join([key] + ([k] + path), '.')
  {
    assert ([key] + ([k] + path))[1..] == [k] + path;
    assert ([k] + path)[1..] == path && ([key + "." + k] + path)[1..] == path;
    if path == [] {
      assert [key + "." + k] + path == [key + "." + k];
      assert [k] + path == [k];
    }
  }

  lemma {:induction false} LeafIsFollowed(key: string, n: Node, p: (string, Value))
    requires WellTyped(n) && p in Leaves(key, n)
    ensures exists path :: LeadsTo(key, n, path, p)
    decreases n
  {
    if n.Tree? {
      var k :| k in n.kids && p in Leaves(key + "." + k, n.kids[k]);
      LeafIsFollowed(key + "." + k, n.kids[k], p);
      var path :| LeadsTo(key + "." + k, n.kids[k], path, p);
      JoinedKeys(key, k, path);
      assert ([k] + path)[1..] == path;
      assert LeadsTo(key, n, [k] + path, p);
    } else {
      var path: seq<string> := [];
      assert [key] + path == [key] && Follow(n, path) == n;
      if n.Items? { assert forall i :: 0 <= i < |n.vs| ==> n.vs[i] in n.vs; }
      assert LeadsTo(key, n, path, p);
    }
  }

  lemma {:induction false} FollowedIsLeaf(key: string, n: Node, path: seq<string>, p: (string, Value))
    requires WellTyped(n) && LeadsTo(key, n, path, p)
    ensures p in Leaves(key, n)
    decreases |path|
  {
    if path == [] {
      assert [key] + path == [key];
      if n.Items? { assert p.1.ss == Texts(n.vs); }
    } else {
      assert path == [path[0]] + path[1..];
      JoinedKeys(key, path[0], path[1..]);
      FollowedIsLeaf(key + "." + path[0], n.kids[path[0]], path[1..], p);
    }
  }

  /** The option has the value at the end of some path whose keys, joined by dots, are its name. */
  ghost predicate Names(entries: map<string, Node>, path: seq<string>, name: string, v: Value) {
    path != [] && name == Join(path, '.') && Means(Follow(Tree(entries), path), v)
  }

  lemma NamesLeadsTo(entries: map<string, Node>, k: string, path: seq<string>, p: (string, Value))
    requires k in entries
    ensures Names(entries, [k] + path, p.0, p.1) <==> LeadsTo(k, entries[k], path, p)
  {
    assert ([k] + path)[1..] == path;
  }

  lemma LeavesAreNamed(entries: map<string, Node>, p: (string, Value))
    requires WellTypedAll(entries)
    ensures p in AllLeaves(entries) <==> exists path :: Names(entries, path, p.0, p.1)
  {
    if p in AllLeaves(entries) {
      var k :| k in entries && p in Leaves(k, entries[k]);
      LeafIsFollowed(k, entries[k], p);
      var path :| LeadsTo(k, entries[k], path, p);
      NamesLeadsTo(entries, k, path, p);
    }
    if path :| Names(entries, path, p.0, p.1) {
      assert path == [path[0]] + path[1..];
      NamesLeadsTo(entries, path[0], path[1..], p);
      FollowedIsLeaf(path[0], entries[path[0]], path[1..], p);
    }
  }

  /** The options of a tree without clashes are what its paths lead to. */
  lemma FlatSays(entries: map<string, Node>, name: string, v: Value)
    requires WellTypedAll(entries) && Unambiguous(AllLeaves(entries))
    ensures name in Flat(entries) && Flat(entries)[name] == v <==> exists path :: Names(entries, path, name, v)
  {
    LeavesAreNamed(entries, (name, v));
    var ls := AllLeaves(entries);
    if name in Paths(ls) { assert (name, ValueAt(ls, name)) in ls; }
    if (name, v) in ls { assert name in Paths(ls); }
  }

  // --- The arguments of a collector --------------------------------------------------------

  /** The argument sets one of the options. */
  ghost predicate Sets(o: Opts, a: string) { exists k, v :: SetsTo(o, k, v, a) }

  ghost predicate SetsTo(o: Opts, k: string, v: string, a: string) {
    && k in o && a == "--" + k + "=" + v
    && (match o[k] case One(s) => v == s case Many(ss) => v in ss)
  }

  ghost predicate Begins(o: Opts, prefix: string) { exists a :: Sets(o, a) && prefix <= a }

  lemma FlagsSet(o: Opts, k: string, a: string)
    requires k in o
    ensures a in Flags(k, o[k]) <==> exists v :: SetsTo(o, k, v, a)
  {
    if a in Flags(k, o[k]) {
      var i :| 0 <= i < |Flags(k, o[k])| && Flags(k, o[k])[i] == a;
      assert SetsTo(o, k, if o[k].One? then o[k].s else o[k].ss[i], a);
    }
    if v :| SetsTo(o, k, v, a) {
      var i :| if o[k].One? then i == 0 else 0 <= i < |o[k].ss| && o[k].ss[i] == v;
      assert Flags(k, o[k])[i] == a;
    }
  }

  lemma FlagListSets(o: Opts, a: string)
    ensures a in FlagList(o.Keys, o) <==> Sets(o, a)
  {
    assert a in FlagList(o.Keys, o) <==> a in multiset(FlagList(o.Keys, o));
    FlagBagMember(o.Keys, o, a);
    forall k | k in o ensures a in Flags(k, o[k]) <==> exists v :: SetsTo(o, k, v, a) { FlagsSet(o, k, a); }
  }

  lemma FlagListBegins(o: Opts, prefix: string)
    requires prefix != ""
    ensures FindItem(prefix, FlagList(o.Keys, o)) != "" <==> Begins(o, prefix)
  {
    var r := FlagList(o.Keys, o);
    forall a ensures a in r <==> Sets(o, a) { FlagListSets(o, a); }
    if exists a :: a in r && prefix <= a {
      FindItemFound(prefix, r);
    } else {
      FindItemAbsent(prefix, r);
    }
  }

  lemma BothBegin(main: Opts, extra: Opts, ownFile: bool, prefix: string)
    requires prefix != "" && !(prefix <= SAMPLING_FILE)
    ensures FindItem(prefix, WithSampling(FlagList(main.Keys, main) + FlagList(extra.Keys, extra), ownFile)) != ""
            <==> Begins(main, prefix) || Begins(extra, prefix)
  {
    var own, more := FlagList(main.Keys, main), FlagList(extra.Keys, extra);
    FlagListBegins(main, prefix);
    FlagListBegins(extra, prefix);
    FindItemConcat(prefix, own, more);
    FindItemConcat(prefix, own + more, [SAMPLING_FILE]);
    FindItemAbsent(prefix, [SAMPLING_FILE]);
  }

  const TLS_SET := "--collector.grpc.tls.enabled="
  const REPORTER := "--reporter.grpc.host-port="

  /** The operator adds the TLS files. */
  ghost predicate AddsTls(main: Opts, extra: Opts, openShift: bool) {
    openShift && !Begins(main, TLS_SET) && !Begins(main, REPORTER) && !Begins(extra, REPORTER)
  }

  ghost predicate IsTlsArg(a: string) {
    || a == "--collector.grpc.tls.enabled=true" || a == "--collector.grpc.tls.cert=/etc/tls-config/tls.crt"
    || a == "--collector.grpc.tls.key=/etc/tls-config/tls.key"
  }

  lemma TlsArgs(a: string)
    ensures a in COLLECTOR_TLS <==> IsTlsArg(a)
  {
  }

  lemma SamplingIsNoReporter()
    ensures !(REPORTER <= SAMPLING_FILE)
  {
    var a, b := SAMPLING_FILE, REPORTER;
    assert a[2] == 's';
    assert b[2] == 'r';
  }

  lemma TlsAdded(main: Opts, extra: Opts, ownFile: bool, openShift: bool)
    ensures var own := FlagList(main.Keys, main);
            var args := WithSampling(own + FlagList(extra.Keys, extra), ownFile);
            var added := if AddsTls(main, extra, openShift) then COLLECTOR_TLS else [];
            WithCollectorTls(own, args, openShift) == args + added
  {
    SamplingIsNoReporter();
    FlagListBegins(main, TLS_SET);
    BothBegin(main, extra, ownFile, REPORTER);
  }

  lemma SortedMember(args: seq<string>, a: string)
    ensures Sorted(Sort(args)) && (a in Sort(args) <==> a in args)
  {
    SortCorrect(args);
    assert a in Sort(args) <==> a in multiset(Sort(args));
    assert a in args <==> a in multiset(args);
  }

  lemma AddedMember(args: seq<string>, ownFile: bool, more: seq<string>, a: string)
    ensures a in WithSampling(args, ownFile) + more <==> a in args || (!ownFile && a == SAMPLING_FILE) || a in more
  {
  }

  /**
   The arguments are sorted, and they are: one for every value of a collector option or of a storage option, the
   sampling file unless the instance names its own, and the TLS files on OpenShift unless the collector sets
   whether TLS is on or some option sets the reporter's address.
   */
  lemma CollectorArgsSay(main: Opts, extra: Opts, ownFile: bool, openShift: bool, a: string)
    ensures Sorted(SortedFlags(main, extra, ownFile, openShift))
    ensures a in SortedFlags(main, extra, ownFile, openShift) <==>
              || Sets(main, a) || Sets(extra, a)
              || (!ownFile && a == "--sampling.strategies-file=" + "/etc/jaeger/sampling/sampling.json")
              || (AddsTls(main, extra, openShift) && IsTlsArg(a))
  {
    var own, more := FlagList(main.Keys, main), FlagList(extra.Keys, extra);
    FlagListSets(main, a);
    FlagListSets(extra, a);
    TlsAdded(main, extra, ownFile, openShift);
    SortedMember(WithCollectorTls(own, WithSampling(own + more, ownFile), openShift), a);
    AddedMember(own + more, ownFile, if AddsTls(main, extra, openShift) then COLLECTOR_TLS else [], a);
    if AddsTls(main, extra, openShift) { TlsArgs(a); }
  }
}
