/**
 The agent's tags argument (pkg/inject/sidecar.go): printed as a sorted comma-separated list
 of key=value pairs, and parsed back from an existing agent container on re-injection.
 */
module Tags {
  import opened Text

  type TagMap = map<string, string>

  const TAGS_FLAG := "--agent.tags="

  function Pair(k: string, v: string): string { k + "=" + v }

  // --- joinTags ----------------------------------------------------------------------------

  ghost function PairBag(keys: set<string>, tags: TagMap): multiset<string>
    requires keys <= tags.Keys
  {
    if keys == {} then multiset{}
    else var k :| k in keys; multiset{Pair(k, tags[k])} + PairBag(keys - {k}, tags)
  }

  lemma {:induction false} PairBagRemove(keys: set<string>, k: string, tags: TagMap)
    requires k in keys && keys <= tags.Keys
    ensures PairBag(keys, tags) == multiset{Pair(k, tags[k])} + PairBag(keys - {k}, tags)
  {
    var c :| c in keys && PairBag(keys, tags) == multiset{Pair(c, tags[c])} + PairBag(keys - {c}, tags);
    if c != k {
      PairBagRemove(keys - {c}, k, tags);
      PairBagRemove(keys - {k}, c, tags);
      assert keys - {c} - {k} == keys - {k} - {c};
    }
  }

  lemma {:induction false} PairBagMember(keys: set<string>, tags: TagMap, p: string)
    requires keys <= tags.Keys
    ensures p in PairBag(keys, tags) <==> exists k :: k in keys && p == Pair(k, tags[k])
  {
    if keys != {} {
      var c :| c in keys && PairBag(keys, tags) == multiset{Pair(c, tags[c])} + PairBag(keys - {c}, tags);
      PairBagMember(keys - {c}, tags, p);
      if k :| k in keys && p == Pair(k, tags[k]) { assert k == c || k in keys - {c}; }
    }
  }

  ghost function PairList(keys: set<string>, tags: TagMap): (r: seq<string>)
    requires keys <= tags.Keys
    ensures multiset(r) == PairBag(keys, tags)
  {
    if keys == {} then []
    else
      var k :| k in keys && PairBag(keys, tags) == multiset{Pair(k, tags[k])} + PairBag(keys - {k}, tags);
      [Pair(k, tags[k])] + PairList(keys - {k}, tags)
  }

  ghost function SortedPairs(tags: TagMap): seq<string> { Sort(PairList(tags.Keys, tags)) }

  ghost function Printed(tags: TagMap): string { Join(SortedPairs(tags), ',') }

  /** The printed tags do not depend on the order in which the map is ranged over. */
  method JoinTags(tags: TagMap) returns (r: string)
    ensures r == Printed(tags)
  {
    var pairs: seq<string> := [];
    var todo := tags.Keys;
    while todo != {}
      invariant todo <= tags.Keys
      invariant multiset(pairs) + PairBag(todo, tags) == PairBag(tags.Keys, tags)
      decreases todo
    {
      var k :| k in todo;
      PairBagRemove(todo, k, tags);
      pairs := pairs + [Pair(k, tags[k])];
      todo := todo - {k};
    }
    SortOfPermutation(pairs, PairList(tags.Keys, tags));
    r := Join(Sort(pairs), ',');
  }

  lemma SortedPairsMember(tags: TagMap, p: string)
    ensures p in SortedPairs(tags) <==> exists k :: k in tags && p == Pair(k, tags[k])
  {
    SortCorrect(PairList(tags.Keys, tags));
    PairBagMember(tags.Keys, tags, p);
    assert p in SortedPairs(tags) <==> p in multiset(SortedPairs(tags));
  }

  /** The printed tags are the sorted pairs "key=value", one for every tag, with commas between them. */
  lemma PrintedSays(tags: TagMap)
    ensures Printed(tags) == Join(SortedPairs(tags), ',') && Sorted(SortedPairs(tags))
    ensures |SortedPairs(tags)| == |tags|
    ensures forall p :: p in SortedPairs(tags) <==> exists k, v :: k in tags && tags[k] == v && p == k + "=" + v
  {
    SortCorrect(PairList(tags.Keys, tags));
    PairBagSize(tags.Keys, tags);
    assert |SortedPairs(tags)| == |multiset(SortedPairs(tags))|;
    assert |tags| == |tags.Keys|;
    forall p ensures p in SortedPairs(tags) <==> exists k, v :: k in tags && tags[k] == v && p == k + "=" + v {
      SortedPairsMember(tags, p);
    }
  }

  lemma {:induction false} PairBagSize(keys: set<string>, tags: TagMap)
    requires keys <= tags.Keys
    ensures |PairBag(keys, tags)| == |keys|
  {
    if k :| k in keys {
      PairBagRemove(keys, k, tags);
      PairBagSize(keys - {k}, tags);
    }
  }

  // --- parseAgentTags ----------------------------------------------------------------------

  function KeyOf(p: string): string requires '=' in p { p[..IndexOf(p, '=')] }
  function ValueOf(p: string): string requires '=' in p { p[IndexOf(p, '=') + 1..] }

  /** The pairs entered one by one; None where indexing the missing value panics. */
  function Fold(parts: seq<string>): Option<TagMap> {
    if parts == [] then Some(map[])
    else
      var last := parts[|parts| - 1];
      var before := Fold(parts[..|parts| - 1]);
      if before.None? || '=' !in last then None
      else Some(before.value[KeyOf(last) := ValueOf(last)])
  }

  function Parsed(args: seq<string>): Option<TagMap> {
    var arg := FindItem(TAGS_FLAG, args);
    if arg == "" then Some(map[])
    else
      AfterFlag(args);
      Fold(Split(ValueOf(arg), ','))
  }

  lemma AfterFlag(args: seq<string>)
    requires FindItem(TAGS_FLAG, args) != ""
    ensures TAGS_FLAG <= FindItem(TAGS_FLAG, args) && '=' in FindItem(TAGS_FLAG, args)
  {
    if forall a :: a in args ==> !(TAGS_FLAG <= a) {
      FindItemAbsent(TAGS_FLAG, args);
    } else {
      FindItemFound(TAGS_FLAG, args);
      assert TAGS_FLAG[12] == '=';
    }
  }

  method ParseAgentTags(args: seq<string>) returns (r: Option<TagMap>)
    ensures r == Parsed(args)
  {
    var arg := FindItem(TAGS_FLAG, args);
    if arg == "" { return Some(map[]); }
    AfterFlag(args);
    var parts := Split(ValueOf(arg), ',');
    var tags: TagMap := map[];
    for i := 0 to |parts|
      invariant Fold(parts[..i]) == Some(tags)
    {
      assert parts[..i + 1][..i] == parts[..i];
      if '=' !in parts[i] {
        FoldFails(parts, i);
        return None;
      }
      tags := tags[KeyOf(parts[i]) := ValueOf(parts[i])];
    }
    assert parts[..|parts|] == parts;
    r := Some(tags);
  }

  lemma {:induction false} FoldFails(parts: seq<string>, i: nat)
    requires i < |parts| && '=' !in parts[i]
    ensures Fold(parts).None?
  {
    if i < |parts| - 1 { FoldFails(parts[..|parts| - 1], i); }
  }

  // --- The round trip ----------------------------------------------------------------------

  /** Keys without '=' or ',' and values without ','. */
  ghost predicate Printable(tags: TagMap) {
    forall k :: k in tags ==> '=' !in k && ',' !in k && ',' !in tags[k]
  }

  lemma CutPair(k: string, v: string)
    requires '=' !in k
    ensures '=' in Pair(k, v) && KeyOf(Pair(k, v)) == k && ValueOf(Pair(k, v)) == v
  {
    var p := Pair(k, v);
    assert p[|k|] == '=' && p[..|k|] == k;
    IndexOfIs(p, '=', |k|);
    assert p[|k| + 1..] == v;
  }

  /** The entries of `tags` whose pair is among `parts`. */
  ghost function Covered(parts: seq<string>, tags: TagMap): TagMap {
    map k | k in tags && Pair(k, tags[k]) in parts :: tags[k]
  }

  lemma {:induction false} FoldPairs(parts: seq<string>, tags: TagMap)
    requires Printable(tags)
    requires forall p :: p in parts ==> exists k :: k in tags && p == Pair(k, tags[k])
    ensures Fold(parts) == Some(Covered(parts, tags))
  {
    if parts != [] {
      var front, last := parts[..|parts| - 1], parts[|parts| - 1];
      assert parts == front + [last];
      assert last in parts;
      forall p | p in front ensures p in parts {}
      FoldPairs(front, tags);
      var k :| k in tags && last == Pair(k, tags[k]);
      CutPair(k, tags[k]);
      forall x | x in tags && Pair(x, tags[x]) == last ensures x == k { CutPair(x, tags[x]); }
      assert Covered(parts, tags) == Covered(front, tags)[k := tags[k]];
    }
  }

  /** Whatever comes out of the parser is printable, and there is at least one pair. */
  lemma {:induction false} FoldPrintable(parts: seq<string>)
    requires forall p :: p in parts ==> ',' !in p
    ensures Fold(parts).Some? ==> Printable(Fold(parts).value)
    ensures Fold(parts).Some? && parts != [] ==> Fold(parts).value != map[]
  {
    if parts != [] {
      var front, last := parts[..|parts| - 1], parts[|parts| - 1];
      assert last in parts;
      forall p | p in front ensures ',' !in p { assert p in parts; }
      FoldPrintable(front);
      if Fold(parts).Some? {
        assert KeyOf(last) in Fold(parts).value;
      }
    }
  }

  lemma ParsedPrintable(args: seq<string>)
    ensures Parsed(args).Some? ==> Printable(Parsed(args).value)
  {
    var arg := FindItem(TAGS_FLAG, args);
    if arg != "" {
      AfterFlag(args);
      SplitParts(ValueOf(arg), ',');
      FoldPrintable(Split(ValueOf(arg), ','));
    }
  }

  lemma FlagValue(s: string)
    ensures '=' in TAGS_FLAG + s && ValueOf(TAGS_FLAG + s) == s
  {
    assert TAGS_FLAG + s == Pair("--agent.tags", s);
    CutPair("--agent.tags", s);
  }

  /**
   Printing and parsing: the argument list whose tags argument prints `tags` parses back to
   the same map exactly when the map is non-empty and no separator occurs where it would be
   misread. (On an empty map the parser indexes past the end.)
   */
  lemma TagsRoundTrip(tags: TagMap, args: seq<string>)
    requires FindItem(TAGS_FLAG, args) == TAGS_FLAG + Printed(tags)
    ensures Parsed(args) == Some(tags) <==> tags != map[] && Printable(tags)
  {
    FlagValue(Printed(tags));
    var parts := Split(Printed(tags), ',');
    assert Parsed(args) == Fold(parts);
    if tags != map[] && Printable(tags) {
      PrintedFolds(tags);
    } else {
      SplitParts(Printed(tags), ',');
      FoldPrintable(parts);
    }
  }

  lemma PrintedFolds(tags: TagMap)
    requires tags != map[] && Printable(tags)
    ensures Fold(Split(Printed(tags), ',')) == Some(tags)
  {
    var pairs := SortedPairs(tags);
    forall p | p in pairs ensures ',' !in p && exists k :: k in tags && p == Pair(k, tags[k]) {
      SortedPairsMember(tags, p);
    }
    forall k | k in tags ensures Pair(k, tags[k]) in pairs { SortedPairsMember(tags, Pair(k, tags[k])); }
    assert pairs != [] by {
      var k0 :| k0 in tags;
      assert Pair(k0, tags[k0]) in pairs;
    }
    SplitJoin(pairs, ',');
    FoldPairs(pairs, tags);
    assert Covered(pairs, tags) == tags;
  }
}
