/**
 Names the operator derives from an instance name: shortened to a length limit
 (pkg/util/truncate.go) and made safe for DNS (pkg/util/dns_name.go).
 */
module Names {
  import opened Text

  /** An operand of a format string; only strings may be shortened. */
  datatype Arg = S(s: string) | Other(text: string)

  function Shown(a: Arg): string { match a case S(s) => s case Other(t) => t }

  /** Sprintf of a format given by its literal parts: lits[0] v[0] lits[1] v[1] ... */
  function Render(lits: seq<string>, values: seq<Arg>): string
    requires |lits| == |values| + 1
  {
    if values == [] then lits[0]
    else lits[0] + Shown(values[0]) + Render(lits[1..], values[1..])
  }

  /** The operands after cutting `excess` bytes, first strings first. */
  function Shorten(values: seq<Arg>, excess: nat): (r: seq<Arg>)
    ensures |r| == |values|
  {
    if values == [] then []
    else match values[0]
      case S(s) =>
        if |s| > excess then [S(s[..|s| - excess])] + values[1..]
        else [S("")] + Shorten(values[1..], excess - |s|)
      case Other(_) => [values[0]] + Shorten(values[1..], excess)
  }

  function TrimRight(s: string): string {
    if s == "" || IsAlnum(s[|s| - 1]) then s else TrimRight(s[..|s| - 1])
  }

  function TrimLeft(s: string): string {
    if s == "" || IsAlnum(s[0]) then s else TrimLeft(s[1..])
  }

  function Trim(s: string): string { TrimLeft(TrimRight(s)) }

  /** The text before the hard cap and the trim. */
  function Cut(lits: seq<string>, max: nat, values: seq<Arg>): string
    requires |lits| == |values| + 1
  {
    var full := Render(lits, values);
    if |full| > max then Render(lits, Shorten(values, |full| - max)) else full
  }

  function Truncated(lits: seq<string>, max: nat, values: seq<Arg>): string
    requires |lits| == |values| + 1
  {
    var cut := Cut(lits, max, values);
    if |cut| > max then cut[..max] else Trim(cut)
  }

  method Truncate(lits: seq<string>, max: nat, values: seq<Arg>) returns (r: string)
    requires |lits| == |values| + 1
    ensures r == Truncated(lits, max, values)
  {
    r := Render(lits, values);
    if |r| > max {
      var truncated := Reduce(values, |r| - max);
      r := Render(lits, truncated);
    }
    if |r| > max { return r[..max]; }
    r := Trim(r);
  }

  /** Truncate's loop over the operands. */
  method Reduce(values: seq<Arg>, goal: nat) returns (truncated: seq<Arg>)
    ensures truncated == Shorten(values, goal)
  {
    var excess: nat := goal;
    truncated := [];
    for i := 0 to |values|
      invariant truncated + Shorten(values[i..], excess) == Shorten(values, goal)
    {
      ShortenStep(values[i..], excess);
      assert values[i..][0] == values[i] && values[i..][1..] == values[i + 1..];
      var value := values[i];
      ghost var before := truncated;
      if excess == 0 {
      } else if value.S? {
        if |value.s| > excess {
          value, excess := S(value.s[..|value.s| - excess]), 0;
        } else {
          value, excess := S(""), excess - |value.s|;
        }
      }
      truncated := truncated + [value];
      Reassociate(before, value, Shorten(values[i + 1..], excess));
    }
    assert values[|values|..] == [];
  }

  lemma Reassociate(a: seq<Arg>, v: Arg, b: seq<Arg>)
    ensures (a + [v]) + b == a + ([v] + b)
  {
  }

  /** One round of Reduce: what happens to the first operand and to the excess. */
  lemma ShortenStep(values: seq<Arg>, e: nat)
    requires values != []
    ensures var v := values[0];
            Shorten(values, e) ==
              if e == 0 then [v] + Shorten(values[1..], 0)
              else if v.Other? then [v] + Shorten(values[1..], e)
              else if |v.s| > e then [S(v.s[..|v.s| - e])] + Shorten(values[1..], 0)
              else [S("")] + Shorten(values[1..], e - |v.s|)
  {
    ShortenNothing(values);
    ShortenNothing(values[1..]);
    assert values == [values[0]] + values[1..];
  }

  lemma {:induction false} ShortenNothing(values: seq<Arg>)
    ensures Shorten(values, 0) == values
  {
    if values != [] {
      ShortenNothing(values[1..]);
      assert values == [values[0]] + values[1..];
      if values[0].S? { assert values[0].s[..|values[0].s|] == values[0].s; }
    }
  }

  // --- How long the result is --------------------------------------------------------------

  /** The part of the result that cannot be shortened. */
  function FixedLength(lits: seq<string>, values: seq<Arg>): nat
    requires |lits| == |values| + 1
  {
    if values == [] then |lits[0]|
    else |lits[0]| + (if values[0].S? then 0 else |values[0].text|) + FixedLength(lits[1..], values[1..])
  }

  lemma {:induction false} ShortenLength(lits: seq<string>, values: seq<Arg>, excess: nat)
    requires |lits| == |values| + 1 && excess <= |Render(lits, values)|
    ensures var n := |Render(lits, values)|; var fixed := FixedLength(lits, values);
            |Render(lits, Shorten(values, excess))| == if n - excess >= fixed then n - excess else fixed
  {
    FixedAtMost(lits, values);
    if values != [] {
      FixedAtMost(lits[1..], values[1..]);
      match values[0]
      case S(s) =>
        if |s| <= excess {
          if excess - |s| <= |Render(lits[1..], values[1..])| {
            ShortenLength(lits[1..], values[1..], excess - |s|);
          } else {
            ShortenLength(lits[1..], values[1..], |Render(lits[1..], values[1..])|);
            ShortenMore(lits[1..], values[1..], |Render(lits[1..], values[1..])|, excess - |s|);
          }
        }
      case Other(t) =>
        if excess <= |Render(lits[1..], values[1..])| {
          ShortenLength(lits[1..], values[1..], excess);
        } else {
          ShortenLength(lits[1..], values[1..], |Render(lits[1..], values[1..])|);
          ShortenMore(lits[1..], values[1..], |Render(lits[1..], values[1..])|, excess);
        }
    }
  }

  lemma {:induction false} FixedAtMost(lits: seq<string>, values: seq<Arg>)
    requires |lits| == |values| + 1
    ensures FixedLength(lits, values) <= |Render(lits, values)|
  {
    if values != [] { FixedAtMost(lits[1..], values[1..]); }
  }

  /** Once everything that can go is gone, asking for more changes nothing. */
  lemma {:induction false} ShortenMore(lits: seq<string>, values: seq<Arg>, e1: nat, e2: nat)
    requires |lits| == |values| + 1 && |Render(lits, values)| <= e1 <= e2
    ensures |Render(lits, Shorten(values, e1))| == |Render(lits, Shorten(values, e2))|
  {
    if values != [] {
      match values[0]
      case S(s) => ShortenMore(lits[1..], values[1..], e1 - |s|, e2 - |s|);
      case Other(_) => ShortenMore(lits[1..], values[1..], e1, e2);
    }
  }

  lemma CutLength(lits: seq<string>, max: nat, values: seq<Arg>)
    requires |lits| == |values| + 1
    ensures |Cut(lits, max, values)| > max <==> FixedLength(lits, values) > max
  {
    var full := Render(lits, values);
    FixedAtMost(lits, values);
    if |full| > max { ShortenLength(lits, values, |full| - max); }
  }

  lemma {:induction false} TrimRightFacts(s: string)
    ensures TrimRight(s) <= s
    ensures TrimRight(s) == "" || IsAlnum(TrimRight(s)[|TrimRight(s)| - 1])
    ensures (exists i :: 0 <= i < |s| && IsAlnum(s[i])) <==> TrimRight(s) != ""
    ensures (exists i :: 0 <= i < |s| && IsAlnum(s[i]))
              <==> (exists i :: 0 <= i < |TrimRight(s)| && IsAlnum(TrimRight(s)[i]))
  {
    if s != "" && !IsAlnum(s[|s| - 1]) {
      TrimRightFacts(s[..|s| - 1]);
      if i :| 0 <= i < |s| && IsAlnum(s[i]) { assert s[..|s| - 1][i] == s[i]; }
    }
  }

  lemma {:induction false} TrimLeftFacts(s: string)
    requires s == "" || IsAlnum(s[|s| - 1])
    ensures |TrimLeft(s)| <= |s| && TrimLeft(s) == s[|s| - |TrimLeft(s)|..]
    ensures s != "" ==> TrimLeft(s) != "" && IsAlnum(TrimLeft(s)[0]) && IsAlnum(TrimLeft(s)[|TrimLeft(s)| - 1])
  {
    if s != "" && !IsAlnum(s[0]) {
      TrimLeftFacts(s[1..]);
    }
  }

  predicate AlnumEnds(s: string) { s != "" && IsAlnum(s[0]) && IsAlnum(s[|s| - 1]) }

  predicate HasAlnum(s: string) { exists i :: 0 <= i < |s| && IsAlnum(s[i]) }

  lemma TrimFacts(s: string)
    ensures |Trim(s)| <= |s|
    ensures HasAlnum(s) ==> AlnumEnds(Trim(s))
    ensures !HasAlnum(s) ==> Trim(s) == ""
    ensures Trim(s) == s <==> s == "" || AlnumEnds(s)
    ensures forall c :: c in Trim(s) ==> c in s
  {
    TrimRightFacts(s);
    TrimLeftFacts(TrimRight(s));
  }

  /**
   The length limit holds for every format and operands. When the fixed part fits, the result
   is free of leading and trailing punctuation; otherwise it is a plain prefix of the limit's
   length, not the untouched input that the source's comment announces.
   */
  lemma TruncatedBounds(lits: seq<string>, max: nat, values: seq<Arg>)
    requires |lits| == |values| + 1
    ensures |Truncated(lits, max, values)| <= max
    ensures FixedLength(lits, values) <= max ==>
              Truncated(lits, max, values) == "" || AlnumEnds(Truncated(lits, max, values))
    ensures FixedLength(lits, values) > max ==> |Truncated(lits, max, values)| == max
  {
    CutLength(lits, max, values);
    TrimFacts(Cut(lits, max, values));
  }

  // --- DNSName -----------------------------------------------------------------------------

  predicate Ascii(s: string) { forall i :: 0 <= i < |s| ==> s[i] < 128 as char }

  predicate DnsChar(c: char) { IsLower(c) || IsDigit(c) }

  function DnsNameOf(name: string): (r: string)
    ensures |r| == |name|
  {
    seq(|name|, i requires 0 <= i < |name| =>
      var x := LowerChar(name[i]);
      if DnsChar(x) then x else if i == 0 || i == |name| - 1 then 'a' else '-')
  }

  method DNSName(name: string) returns (d: string)
    requires Ascii(name)
    ensures d == DnsNameOf(name)
  {
    d := "";
    var lower := ToLower(name);
    for i := 0 to |lower|
      invariant d == DnsNameOf(name)[..i]
    {
      var x := lower[i];
      if DnsChar(x) {
        d := d + [x];
      } else if i == 0 || i == |name| - 1 {
        d := d + ['a'];
      } else {
        d := d + ['-'];
      }
    }
  }

  /** A host label: RFC 1123 section 2.1 syntax within the length limit of RFC 1035 section 2.3.4. */
  predicate HostLabel(s: string) {
    && 1 <= |s| <= 63
    && (forall i :: 0 <= i < |s| ==> DnsChar(s[i]) || s[i] == '-')
    && DnsChar(s[0]) && DnsChar(s[|s| - 1])
  }

  lemma DnsNameIsLabel(name: string)
    ensures HostLabel(DnsNameOf(name)) <==> 1 <= |name| <= 63
  {
  }

  /**
   What becomes of every character: lower-case letters and digits stay, capitals become lower case, anything else
   becomes 'a' at either end and '-' in between. A host label is therefore left alone.
   */
  lemma DnsNameSays(name: string)
    ensures |DnsNameOf(name)| == |name|
    ensures forall i :: 0 <= i < |name| ==>
              var c, d := name[i], DnsNameOf(name)[i];
              if 'a' <= c <= 'z' || '0' <= c <= '9' then d == c
              else if 'A' <= c <= 'Z' then 'a' <= d <= 'z' && d as int - c as int == 'a' as int - 'A' as int
              else d == if i == 0 || i == |name| - 1 then 'a' else '-'
    ensures HostLabel(name) ==> DnsNameOf(name) == name
  {
    if HostLabel(name) {
      forall i | 0 <= i < |name| ensures DnsNameOf(name)[i] == name[i] {
        assert DnsChar(name[i]) || name[i] == '-';
      }
    }
  }

  // --- The names in use --------------------------------------------------------------------

  /** Truncate("%s" + suffix, max, name) */
  function Suffixed(name: string, suffix: string, max: nat): string { Truncated(["", suffix], max, [S(name)]) }

  /** What is left of the name when name and suffix share `max` bytes. */
  function Room(name: string, suffix: string, max: nat): string
    requires |suffix| <= max
  {
    if |name| + |suffix| <= max then name else name[..max - |suffix|]
  }

  lemma SuffixedIs(name: string, suffix: string, max: nat)
    ensures |suffix| <= max ==> Suffixed(name, suffix, max) == Trim(Room(name, suffix, max) + suffix)
    ensures |suffix| > max ==> Suffixed(name, suffix, max) == suffix[..max]
  {
    RenderSuffixed(name, suffix);
    var excess := |name| + |suffix| - max;
    if excess > 0 {
      var short := if |name| > excess then name[..|name| - excess] else "";
      assert Shorten([S(name)], excess) == [S(short)];
      RenderSuffixed(short, suffix);
      if |suffix| <= max { assert short == Room(name, suffix, max); }
    }
  }

  lemma RenderSuffixed(name: string, suffix: string)
    ensures Render(["", suffix], [S(name)]) == name + suffix
  {
    assert ["", suffix][1..] == [suffix] && [S(name)][1..] == [];
  }

  /**
   Service names: for every instance name, DNSName(Truncate("%s<suffix>", 63, name)) is a host
   label exactly when some letter or digit survives the cut, or the suffix alone exceeds the
   limit. A suffix such as "-collector" that fits and holds a letter therefore always works.
   */
  lemma ServiceNameIsLabel(name: string, suffix: string)
    ensures HostLabel(DnsNameOf(Suffixed(name, suffix, 63))) <==>
              |suffix| > 63 || HasAlnum(Room(name, suffix, 63)) || HasAlnum(suffix)
    ensures |suffix| <= 63 && HasAlnum(suffix) ==> AlnumEnds(Suffixed(name, suffix, 63))
  {
    var t := Suffixed(name, suffix, 63);
    SuffixedIs(name, suffix, 63);
    DnsNameIsLabel(t);
    if |suffix| <= 63 {
      var cut := Room(name, suffix, 63) + suffix;
      TrimFacts(cut);
      HasAlnumConcat(Room(name, suffix, 63), suffix);
    }
  }

  /** A name that makes a host label together with the suffix goes into the service name as it is. */
  lemma PlainServiceName(name: string, suffix: string)
    requires HostLabel(name + suffix) && |suffix| <= 63
    ensures DnsNameOf(Suffixed(name, suffix, 63)) == name + suffix
  {
    var s := name + suffix;
    SuffixedIs(name, suffix, 63);
    assert Room(name, suffix, 63) == name;
    assert DnsChar(s[0]) && DnsChar(s[|s| - 1]);
    TrimFacts(s);
    DnsNameSays(s);
  }

  lemma HasAlnumConcat(a: string, b: string)
    ensures HasAlnum(a + b) <==> HasAlnum(a) || HasAlnum(b)
  {
    if i :| 0 <= i < |a| && IsAlnum(a[i]) { assert (a + b)[i] == a[i]; }
    if i :| 0 <= i < |b| && IsAlnum(b[i]) { assert (a + b)[i + |a|] == b[i]; }
    if i :| 0 <= i < |a + b| && IsAlnum((a + b)[i]) {
      if i >= |a| { assert b[i - |a|] == (a + b)[i]; }
    }
  }

  method ServiceName(name: string, suffix: string) returns (r: string)
    requires Ascii(name) && Ascii(suffix)
    requires |suffix| <= 63 && HasAlnum(suffix)
    ensures HostLabel(r) && r == DnsNameOf(Suffixed(name, suffix, 63))
  {
    var t := Truncate(["", suffix], 63, [S(name)]);
    ServiceNameIsLabel(name, suffix);
    SuffixedAscii(name, suffix);
    r := DNSName(t);
  }

  /** The collector service name (pkg/service/collector.go) is a host label for every name. */
  method GetNameForCollectorService(name: string) returns (r: string)
    requires Ascii(name)
    ensures HostLabel(r)
    ensures HostLabel(name + "-collector") ==> r == name + "-collector"
  {
    var suffix := "-collector";
    assert IsAlnum(suffix[1]);
    r := ServiceName(name, suffix);
    if HostLabel(name + suffix) { PlainServiceName(name, suffix); }
  }

  lemma SuffixedAscii(name: string, suffix: string)
    requires Ascii(name) && Ascii(suffix) && |suffix| <= 63
    ensures Ascii(Suffixed(name, suffix, 63))
  {
    SuffixedIs(name, suffix, 63);
    var cut := Room(name, suffix, 63) + suffix;
    TrimFacts(cut);
    assert forall c :: c in cut ==> c < 128 as char;
    var t := Trim(cut);
    forall i | 0 <= i < |t| ensures t[i] < 128 as char { assert t[i] in t; }
  }

  /** Truncate(name, 63) with no operands: the value an instance name takes in a label. */
  function LabelForm(name: string): string { Truncated([name], 63, []) }

  /** A name survives as a label value exactly when it is short and starts and ends well. */
  lemma LabelFormFixed(name: string)
    ensures LabelForm(name) == name <==> |name| <= 63 && (name == "" || AlnumEnds(name))
    ensures |LabelForm(name)| <= 63
  {
    TrimFacts(name);
  }
}
