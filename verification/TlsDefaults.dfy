/**
 The admission defaulter and validator of a Jaeger resource (apis/v1/jaeger_webhook.go):
 Default turns TLS on where TLS flags are present, ValidateUpdate refuses blocks where
 that has not been done.
 */
module TlsDefaults {
  import opened Text
  import opened Options

  // --- The three regular expressions -------------------------------------------------------

  predicate At(a: string, i: int, w: string) { 0 <= i <= |a| - |w| && a[i..i + |w|] == w }

  predicate OneLine(a: string, i: int, j: int)
    requires 0 <= i <= j <= |a|
  {
    '\n' !in a[i..j]
  }

  /** "--.*tls.enabled" */
  predicate EnabledMatch(a: string) {
    exists i, j :: 0 <= i && i + 2 <= j < |a| && At(a, i, "--") && At(a, j, "tls") && EnabledTail(a, i, j)
  }

  predicate EnabledTail(a: string, i: nat, j: nat) {
    i + 2 <= j && At(a, j + 4, "enabled") && OneLine(a, i + 2, j + 4)
  }

  /** "--.*tls.*=" */
  predicate FlagMatch(a: string) {
    exists i, j, k :: 0 <= i && i + 2 <= j && j + 3 <= k < |a| && At(a, i, "--") && At(a, j, "tls") && At(a, k, "=")
                      && OneLine(a, i + 2, k)
  }

  /** Greedy ".*tls" after position `from`: the last "tls" at or before `j` on the same line. */
  function LastTls(a: string, from: nat, j: int): (r: Option<nat>)
    requires from <= |a|
    ensures r.Some? ==> from <= r.value <= j && At(a, r.value, "tls") && OneLine(a, from, r.value)
    decreases j + 1
  {
    if j < from then None
    else if At(a, j, "tls") && OneLine(a, from, j) then Some(j)
    else LastTls(a, from, j - 1)
  }

  lemma {:induction false} LastTlsFound(a: string, from: nat, j: int, t: nat)
    requires from <= t <= j && At(a, t, "tls") && OneLine(a, from, t)
    ensures LastTls(a, from, j).Some? && LastTls(a, from, j).value >= t
    decreases j
  {
    if t < j { LastTlsFound(a, from, j - 1, t); }
  }

  /** FindIndex of "--.*tls": the leftmost start from `i` on, and its greedy end. */
  function Span(a: string, i: nat): (r: Option<(nat, nat)>)
    ensures r.Some? ==> At(a, r.value.0, "--") && r.value.0 + 5 <= r.value.1 && At(a, r.value.1 - 3, "tls")
                        && OneLine(a, r.value.0 + 2, r.value.1 - 3)
    decreases |a| - i
  {
    if i + 2 > |a| then None
    else if At(a, i, "--") && LastTls(a, i + 2, |a|).Some? then Some((i, LastTls(a, i + 2, |a|).value + 3))
    else Span(a, i + 1)
  }

  /** The option name that turns TLS on for a flag such as "--es.tls.ca=...". */
  function EnabledKey(a: string): string
    requires FlagMatch(a)
  {
    FlagHasSpan(a);
    var span := Span(a, 0).value;
    a[span.0 + 2..span.1] + ".enabled"
  }

  lemma FlagHasSpan(a: string)
    requires FlagMatch(a)
    ensures Span(a, 0).Some?
  {
    var i, j, k :| 0 <= i && i + 2 <= j && j + 3 <= k < |a| && At(a, i, "--") && At(a, j, "tls") && At(a, k, "=")
                   && OneLine(a, i + 2, k);
    OneLineShorter(a, i + 2, j, k);
    SpanFound(a, 0, i, j);
  }

  lemma {:induction false} SpanFound(a: string, i: nat, s: nat, t: nat)
    requires i <= s && s + 2 <= t && At(a, s, "--") && At(a, t, "tls") && OneLine(a, s + 2, t)
    ensures Span(a, i).Some?
    decreases s - i
  {
    if i < s { SpanFound(a, i + 1, s, t); } else { LastTlsFound(a, s + 2, |a|, t); }
  }

  lemma FlagAt(a: string, i: nat, j: nat, k: nat)
    requires i + 2 <= j && j + 3 <= k < |a| && At(a, i, "--") && At(a, j, "tls") && At(a, k, "=")
               && OneLine(a, i + 2, k)
    ensures FlagMatch(a)
  {
  }

  lemma OneLineShorter(a: string, i: nat, j: nat, k: nat)
    requires i <= j <= k <= |a| && OneLine(a, i, k)
    ensures OneLine(a, i, j)
  {
    assert a[i..j] == a[i..k][..j - i];
  }

  lemma EnabledFlagShape(x: string, rest: string)
    requires '\n' !in x
    ensures EnabledMatch("--" + x + "tls.enabled" + rest)
  {
    var f := "--" + x + "tls.enabled" + rest;
    var j := |x| + 2;
    assert At(f, 0, "--");
    assert f[j..] == "tls.enabled" + rest;
    assert f[j..j + 3] == f[j..][..3] == "tls";
    assert f[j + 4..j + 11] == f[j..][4..11] == "enabled";
    assert f[2..j + 4] == x + "tls.";
    assert EnabledTail(f, 0, j);
  }

  /** The flag Default adds is one the validator looks for. */
  lemma AddedFlagMatches(a: string, v: string)
    requires FlagMatch(a)
    ensures EnabledMatch(Flag(EnabledKey(a), v))
  {
    var x := KeyShape(a);
    EnabledFlag(x, v);
    EnabledFlagShape(x, "=" + v);
  }

  lemma KeyShape(a: string) returns (x: string)
    requires FlagMatch(a)
    ensures '\n' !in x && EnabledKey(a) == x + "tls" + ".enabled"
  {
    FlagHasSpan(a);
    x := SpanShape(a);
  }

  lemma SpanShape(a: string) returns (x: string)
    requires Span(a, 0).Some?
    ensures var span := Span(a, 0).value; '\n' !in x && a[span.0 + 2..span.1] == x + "tls"
  {
    var span := Span(a, 0).value;
    x := a[span.0 + 2..span.1 - 3];
    KeyParts(a, span.0, span.1);
  }

  lemma KeyParts(a: string, i: nat, e: nat)
    requires i + 5 <= e && At(a, e - 3, "tls")
    ensures a[i + 2..e] == a[i + 2..e - 3] + "tls"
  {
    assert a[e - 3..e - 3 + 3] == "tls";
    assert a[i + 2..e] == a[i + 2..e - 3] + a[e - 3..e];
  }

  lemma EnabledFlag(x: string, v: string)
    ensures Flag(x + "tls" + ".enabled", v) == "--" + x + "tls.enabled" + ("=" + v)
  {
    assert x + "tls" + ".enabled" == x + "tls.enabled";
  }

  // --- Which key is added ------------------------------------------------------------------

  /** Another "tls" of the first line of the argument, behind the one at `j`. */
  ghost predicate TlsAgain(a: string, j: nat, t: nat) {
    2 <= j < t && At(a, t, "tls") && OneLine(a, 2, t)
  }

  /** The match is greedy: the key runs up to the last "tls" of the line. */
  lemma KeyEndsAtLast(a: string, last: nat)
    requires FlagMatch(a) && At(a, 0, "--") && 2 <= last && At(a, last, "tls") && OneLine(a, 2, last)
    requires forall t :: !TlsAgain(a, last, t)
    ensures EnabledKey(a) == a[2..last + 3] + ".enabled"
  {
    LastTlsFound(a, 2, |a|, last);
    var r := LastTls(a, 2, |a|).value;
    assert !TlsAgain(a, last, r);
    assert Span(a, 0) == Some((0, r + 3));
  }

  lemma {:induction false} SomeLast(a: string, j: nat) returns (last: nat)
    requires 2 <= j && At(a, j, "tls") && OneLine(a, 2, j)
    ensures j <= last && At(a, last, "tls") && OneLine(a, 2, last) && forall t :: !TlsAgain(a, last, t)
    decreases |a| - j
  {
    if t :| TlsAgain(a, j, t) { last := SomeLast(a, t); } else { last := j; }
  }

  /**
   A flag "--….tls…=…" with "tls" at `j` turns TLS on under the name up to there and ".enabled" if
   and only if "tls" does not occur again on its line, be it in the name or the value.
   */
  lemma OwnKeyIff(a: string, j: nat)
    requires FlagMatch(a) && At(a, 0, "--") && 2 <= j && At(a, j, "tls") && OneLine(a, 2, j)
    ensures EnabledKey(a) == a[2..j + 3] + ".enabled" <==> forall t :: !TlsAgain(a, j, t)
  {
    var last := SomeLast(a, j);
    KeyEndsAtLast(a, last);
    assert |EnabledKey(a)| == last + 1 + |".enabled"|;
    assert |a[2..j + 3] + ".enabled"| == j + 1 + |".enabled"|;
    assert j < last ==> TlsAgain(a, j, last);
    assert j == last ==> forall t :: !TlsAgain(a, j, t);
  }

  const CERTIFICATE := "--es.tls.ca=/etc/tls/ca.crt"

  /**
   A certificate below a "tls" directory: TLS is switched on under "es.tls.ca=/etc/tls.enabled", a
   name nobody reads.
   */
  lemma CertificatePathMisleads(a: string)
    requires a == CERTIFICATE
    ensures FlagMatch(a) && EnabledKey(a) == a[2..20] + ".enabled" && '=' in EnabledKey(a)
  {
    CertificateIsFlag(a);
    CertificatePlaces(a);
    NoLaterTls(a);
    KeyEndsAtLast(a, 17);
    assert (a[2..20] + ".enabled")[9] == a[11];
  }

  lemma CertificateIsFlag(a: string)
    requires a == CERTIFICATE
    ensures FlagMatch(a) && At(a, 0, "--")
  {
    CertificatePlaces(a);
    assert a[0] == '-' && a[1] == '-' && a[5] == 't' && a[6] == 'l' && a[7] == 's';
    assert a[0..2] == [a[0], a[1]];
    assert a[5..8] == [a[5], a[6], a[7]];
    assert a[11..12] == [a[11]];
    assert At(a, 0, "--") && At(a, 5, "tls") && At(a, 11, "=");
    NoLaterTls(a);
    FlagAt(a, 0, 5, 11);
  }

  lemma CertificatePlaces(a: string)
    requires a == CERTIFICATE
    ensures |a| == 27 && At(a, 17, "tls") && a[11] == '='
  {
    assert a[17] == 't' && a[18] == 'l' && a[19] == 's';
    assert a[17..20] == ['t', 'l', 's'];
  }

  lemma NoLaterTls(a: string)
    requires a == CERTIFICATE
    ensures forall t :: 17 < t ==> !At(a, t, "tls")
    ensures '\n' !in a
  {
    assert a[18] == 'l' && a[19] == 's' && a[20] == '/' && a[21] == 'c' && a[22] == 'a' && a[23] == '.' && a[24] == 'c';
    forall t | 17 < t ensures !At(a, t, "tls") {
      if t <= 24 { assert a[t] != 't'; }
    }
  }

  // --- getAdditionalTLSFlags ---------------------------------------------------------------

  /** Nothing to add: an ".enabled" flag is there, or no TLS flag at all. */
  ghost predicate CompleteArgs(args: seq<string>) {
    (exists a :: a in args && EnabledMatch(a)) || (forall a :: a in args ==> !FlagMatch(a))
  }

  method GetAdditionalTLSFlags(args: seq<string>) returns (key: Option<string>)
    ensures key.None? <==> CompleteArgs(args)
    ensures key.Some? ==> exists a :: a in args && FlagMatch(a) && key.value == EnabledKey(a)
  {
    key := None;
    for n := 0 to |args|
      invariant forall a :: a in args[..n] ==> !EnabledMatch(a)
      invariant key.None? ==> forall a :: a in args[..n] ==> !FlagMatch(a)
      invariant key.Some? ==> exists a :: a in args[..n] && FlagMatch(a) && key.value == EnabledKey(a)
    {
      assert args[..n + 1] == args[..n] + [args[n]];
      if EnabledMatch(args[n]) { return None; }
      if FlagMatch(args[n]) && key.None? { key := Some(EnabledKey(args[n])); }
    }
    assert args[..|args|] == args;
  }

  /** CompleteArgs of a block's arguments, in whatever order they are printed. */
  ghost predicate Complete(o: Opts) {
    (exists a :: a in FlagBag(o.Keys, o) && EnabledMatch(a)) || (forall a :: a in FlagBag(o.Keys, o) ==> !FlagMatch(a))
  }

  /** Adding `key` = "true" is one of the ways Default may complete the block `o`. */
  ghost predicate MayAdd(o: Opts, key: string) {
    exists a :: a in FlagBag(o.Keys, o) && FlagMatch(a) && key == EnabledKey(a)
  }

  function WithFlag(o: Opts, key: string): Opts { Reparse(o)[key := One("true")] }

  ghost predicate Defaulted(before: Opts, after: Opts) {
    if Complete(before) then after == before
    else exists key :: MayAdd(before, key) && after == WithFlag(before, key)
  }

  lemma FlagInBag(o: Opts, k: string, a: string)
    requires k in o && a in Flags(k, o[k])
    ensures a in FlagBag(o.Keys, o)
  {
    FlagBagMember(o.Keys, o, a);
  }

  /**
   Whatever the option content and whichever TLS flag is printed first, a defaulted block
   passes the validator, defaulting it again changes nothing, and one option was set: no
   option that prints anything is overwritten (an empty list prints nothing).
   */
  lemma DefaultedIsComplete(before: Opts, after: Opts)
    requires Defaulted(before, after)
    ensures Complete(after)
    ensures forall again :: Defaulted(after, again) ==> again == after
    ensures forall k :: k in before && before[k] != Many([]) ==> k in after && Shown(after[k]) == Shown(before[k])
    ensures !Complete(before) ==> exists key :: after.Keys == before.Keys + {key} && after[key] == One("true")
  {
    if !Complete(before) {
      var key :| MayAdd(before, key) && after == WithFlag(before, key);
      WithFlagComplete(before, key);
      WithFlagKeeps(before, key);
    }
  }

  lemma WithFlagKeeps(o: Opts, key: string)
    requires key in o ==> o[key] == Many([])
    ensures var r := WithFlag(o, key);
            && r.Keys == o.Keys + {key} && r[key] == One("true")
            && forall k :: k in o && o[k] != Many([]) ==> k in r && Shown(r[k]) == Shown(o[k])
  {
  }

  lemma WithFlagComplete(o: Opts, key: string)
    requires MayAdd(o, key) && !Complete(o)
    ensures Complete(WithFlag(o, key))
    ensures key in o ==> o[key] == Many([])
  {
    var a :| a in FlagBag(o.Keys, o) && FlagMatch(a) && key == EnabledKey(a);
    AddedFlagMatches(a, "true");
    var after := WithFlag(o, key);
    assert Flags(key, after[key]) == [Flag(key, "true")];
    FlagInBag(after, key, Flag(key, "true"));
    AddedIsNew(o, a);
  }

  lemma AddedIsNew(o: Opts, a: string)
    requires FlagMatch(a) && !Complete(o)
    ensures EnabledKey(a) !in o || o[EnabledKey(a)] == Many([])
  {
    var key := EnabledKey(a);
    if key in o && o[key] != Many([]) {
      var v := if o[key].One? then o[key].s else o[key].ss[0];
      AddedFlagMatches(a, v);
      assert Flag(key, v) == Flags(key, o[key])[0];
      FlagInBag(o, key, Flag(key, v));
    }
  }

  // --- The resource ------------------------------------------------------------------------

  /** What looking up the Elasticsearch instance answers. */
  datatype EsLookup = Found(nodeCount: int) | NotFound | Failed

  datatype Verdict = Accepted | EsMissing | TlsIncomplete(block: nat)

  /** Position of the storage block in `objsWithOptions`. */
  const STORAGE: nat := 5

  class Jaeger {
    var storageType: string
    var esName: string
    var esNodeCount: int
    var doNotProvision: bool
    /** AllInOne, Query, Collector, Ingester, Agent, Storage */
    var blocks: seq<Opts>

    ghost predicate Valid() reads this { |blocks| == 6 }

    predicate ShouldInjectOpenShiftElasticsearchConfiguration()
      requires Valid()
      reads this
    {
      storageType == "elasticsearch" && "es.server-urls" !in blocks[STORAGE]
    }

    /** The lookup that makes Default give up and ValidateUpdate refuse. */
    predicate LacksElasticsearch(lookup: EsLookup)
      requires Valid()
      reads this
    {
      ShouldInjectOpenShiftElasticsearchConfiguration() && doNotProvision && lookup.NotFound?
    }

    method Default(lookup: EsLookup)
      requires Valid()
      modifies this
      ensures Valid() && storageType == old(storageType) && doNotProvision == old(doNotProvision)
      ensures esName == if old(esName) == "" then "elasticsearch" else old(esName)
      ensures old(LacksElasticsearch(lookup)) ==> blocks == old(blocks) && esNodeCount == old(esNodeCount)
      ensures !old(LacksElasticsearch(lookup)) ==>
                && (forall i :: 0 <= i < 6 ==> Defaulted(old(blocks)[i], blocks[i]))
                && esNodeCount == if old(ShouldInjectOpenShiftElasticsearchConfiguration() && doNotProvision)
                                  then (if lookup.Found? then lookup.nodeCount else 0) else old(esNodeCount)
    {
      if esName == "" { esName := "elasticsearch"; }
      if ShouldInjectOpenShiftElasticsearchConfiguration() && doNotProvision {
        if lookup.NotFound? { return; }
        esNodeCount := if lookup.Found? then lookup.nodeCount else 0;
      }
      DefaultBlocks();
    }

    /** The loop of Default over the blocks. */
    method DefaultBlocks()
      requires Valid()
      modifies this`blocks
      ensures Valid() && forall i :: 0 <= i < 6 ==> Defaulted(old(blocks)[i], blocks[i])
    {
      for n := 0 to 6
        invariant Valid()
        invariant forall i :: n <= i < 6 ==> blocks[i] == old(blocks)[i]
        invariant forall i :: 0 <= i < n ==> Defaulted(old(blocks)[i], blocks[i])
      {
        var o := DefaultBlock(blocks[n]);
        blocks := blocks[n := o];
      }
    }

    method ValidateUpdate(lookup: EsLookup) returns (v: Verdict)
      requires Valid()
      ensures v == EsMissing <==> LacksElasticsearch(lookup)
      ensures v == Accepted <==> !LacksElasticsearch(lookup) && forall i :: 0 <= i < 6 ==> Complete(blocks[i])
    {
      if ShouldInjectOpenShiftElasticsearchConfiguration() && doNotProvision {
        if lookup.NotFound? { return EsMissing; }
      }
      for n := 0 to 6
        invariant forall i :: 0 <= i < n ==> Complete(blocks[i])
      {
        var complete := CompleteBlock(blocks[n]);
        if !complete { return TlsIncomplete(n); }
      }
      return Accepted;
    }
  }

  lemma CompleteArgsOf(o: Opts, args: seq<string>)
    requires multiset(args) == FlagBag(o.Keys, o)
    ensures CompleteArgs(args) <==> Complete(o)
    ensures forall a :: a in args <==> a in FlagBag(o.Keys, o)
  {
    forall a ensures a in args <==> a in FlagBag(o.Keys, o) { assert a in args <==> a in multiset(args); }
  }

  lemma FlagReparsed(o: Opts, key: string)
    ensures Reparse(o[key := One("true")]) == WithFlag(o, key)
  {
  }

  /** The body of ValidateUpdate's loop. */
  method CompleteBlock(o: Opts) returns (complete: bool)
    ensures complete <==> Complete(o)
  {
    var args := ToArgsInAnyOrder(o);
    var key := GetAdditionalTLSFlags(args);
    CompleteArgsOf(o, args);
    complete := key.None?;
  }

  /** The body of Default's loop; the parse of the copied block cannot fail. */
  method DefaultBlock(o: Opts) returns (r: Opts)
    ensures Defaulted(o, r)
  {
    var args := ToArgsInAnyOrder(o);
    var f := GetAdditionalTLSFlags(args);
    CompleteArgsOf(o, args);
    r := o;
    if f.Some? {
      var key := f.value;
      var m := GenericMap(o);
      var more := m[key := Str("true")];
      r := NewOptions(more);
      GenericLeaves(o[key := One("true")], more);
      FlagReparsed(o, key);
      assert MayAdd(o, key);
    }
  }

  /** Default keeps the answer to "is this an OpenShift Elasticsearch?". */
  lemma DefaultedKeepsServerUrls(before: Opts, after: Opts)
    requires Defaulted(before, after)
    ensures "es.server-urls" in before <==> "es.server-urls" in after
  {
    if !Complete(before) {
      var key :| MayAdd(before, key) && after == WithFlag(before, key);
      var a :| a in FlagBag(before.Keys, before) && FlagMatch(a) && key == EnabledKey(a);
      KeyIsNoServerUrl(a);
    }
  }

  lemma KeyIsNoServerUrl(a: string)
    requires FlagMatch(a)
    ensures EnabledKey(a) != "es.server-urls"
  {
    var key := EnabledKey(a);
    assert key[|key| - 1] == ".enabled"[7] == 'd';
    assert "es.server-urls"[13] == 's' && |"es.server-urls"| == 14;
  }

  /**
   A create request: the defaulter runs, then the validator, against one cluster state. The
   TLS check never refuses; only a missing Elasticsearch instance does. A second admission
   leaves the resource as the first one did.
   */
  method AdmitTwice(j: Jaeger, lookup: EsLookup) returns (first: Verdict, second: Verdict)
    requires j.Valid()
    modifies j
    ensures j.Valid()
    ensures first == second == if old(j.LacksElasticsearch(lookup)) then EsMissing else Accepted
    ensures !old(j.LacksElasticsearch(lookup)) ==> forall i :: 0 <= i < 6 ==> Defaulted(old(j.blocks)[i], j.blocks[i])
  {
    j.Default(lookup);
    ghost var once := j.blocks;
    ghost var missing := old(j.LacksElasticsearch(lookup));
    if !missing {
      DefaultedKeepsServerUrls(old(j.blocks)[STORAGE], j.blocks[STORAGE]);
      forall i | 0 <= i < 6 ensures Complete(j.blocks[i]) {
        DefaultedIsComplete(old(j.blocks)[i], j.blocks[i]);
      }
    }
    first := j.ValidateUpdate(lookup);
    j.Default(lookup);
    if !missing {
      assert forall i :: 0 <= i < 6 ==> Defaulted(once[i], j.blocks[i]);
    }
    assert j.blocks == once;
    second := j.ValidateUpdate(lookup);
  }
}
