/**
 Each injection prints the agent's options anew, ranging over a map (pkg/inject/sidecar.go,
 apis/v1/options.go). When does the order show in the injected deployment?
 */
module SidecarPrintings {
  import opened Text
  import opened Options
  import opened Arguments
  import opened Sidecar
  import opened ReadBack
  import SidecarLaws
  import Names
  import Tags

  // --- The extra arguments -----------------------------------------------------------------

  /** What container() appends to the printed options before it reads the ports. */
  function Extras(j: Instance, env: Platform): seq<string> { BaseArgs(j, env)[|j.options|..] }

  /** An argument the operator adds itself: it is about the reporter. */
  predicate AboutReporter(x: string) { |x| > 2 && x[2] == 'r' }

  lemma StartsAboutReporter(p: string, s: string)
    requires AboutReporter(p)
    ensures AboutReporter(p + s)
  {
  }

  lemma ExtrasAboutReporter(j: Instance)
    ensures AboutReporter(ReporterArg(j)) && forall x :: x in TlsArgs() ==> AboutReporter(x)
  {
    assert AboutReporter(REPORTER) && AboutReporter(TLS_ENABLED) && AboutReporter("--reporter.grpc.tls.ca=");
    StartsAboutReporter(REPORTER, "dns:///" + HeadlessCollector(j.name) + "." + j.namespace + ".svc:14250");
    StartsAboutReporter(TLS_ENABLED, "true");
    StartsAboutReporter("--reporter.grpc.tls.ca=", SERVICE_CA_PATH + "/service-ca.crt");
  }

  /** `b` is `a` with arguments about the reporter appended. */
  ghost predicate Extends(a: seq<string>, b: seq<string>) {
    |a| <= |b| && b == a + b[|a|..] && forall i :: |a| <= i < |b| ==> AboutReporter(b[i])
  }

  lemma OrAddExtends(prefix: string, args: seq<string>, more: seq<string>)
    requires forall x :: x in more ==> AboutReporter(x)
    ensures Extends(args, OrAdd(prefix, args, more)) && Extends(args, args)
  {
    assert (args + more)[|args|..] == more;
  }

  lemma ExtendsOn(a: seq<string>, b: seq<string>, c: seq<string>)
    requires Extends(a, b) && Extends(b, c)
    ensures Extends(a, c)
  {
    forall i | |a| <= i < |c| ensures AboutReporter(c[i]) {
      if i < |b| { assert c[i] == b[i]; }
    }
  }

  lemma ExtrasAppended(j: Instance, env: Platform)
    ensures Extends(j.options, BaseArgs(j, env)) && BaseArgs(j, env) == j.options + Extras(j, env)
    ensures forall x :: x in Extras(j, env) ==> AboutReporter(x)
  {
    var a := WithReporter(j);
    ExtrasAboutReporter(j);
    OrAddExtends(REPORTER, j.options, [ReporterArg(j)]);
    OrAddExtends(TLS_ENABLED, a, TlsArgs());
    ExtendsOn(j.options, a, BaseArgs(j, env));
  }

  /** Both lists grow by the same arguments. */
  ghost predicate GrowAlike(a: seq<string>, a': seq<string>, b: seq<string>, b': seq<string>) {
    exists e :: a' == a + e && b' == b + e
  }

  lemma NoGrowth(a: seq<string>, b: seq<string>)
    ensures GrowAlike(a, a, b, b)
  {
    assert a == a + [] && b == b + [];
  }

  lemma OrAddAlike(prefix: string, a: seq<string>, b: seq<string>, more: seq<string>)
    requires prefix != "" && multiset(a) == multiset(b)
    ensures GrowAlike(a, OrAdd(prefix, a, more), b, OrAdd(prefix, b, more))
    ensures multiset(OrAdd(prefix, a, more)) == multiset(OrAdd(prefix, b, more))
  {
    SamePresence(prefix, a, b);
    NoGrowth(a, b);
  }

  lemma SameTail(a: seq<string>, b: seq<string>, c: seq<string>, a': seq<string>, b': seq<string>, c': seq<string>)
    requires |a| == |a'| && GrowAlike(a, b, a', b') && GrowAlike(b, c, b', c')
    ensures |a| <= |c| && |a'| <= |c'| && c[|a|..] == c'[|a'|..]
  {
    var e :| b == a + e && b' == a' + e;
    var f :| c == b + f && c' == b' + f;
    assert c == a + (e + f) && c' == a' + (e + f);
  }

  lemma SameExtras(j: Instance, env: Platform, again: seq<string>)
    requires multiset(again) == multiset(j.options)
    ensures Extras(j.(options := again), env) == Extras(j, env)
  {
    var k := j.(options := again);
    var a, b := WithReporter(j), WithReporter(k);
    assert ReporterArg(j) == ReporterArg(k);
    OrAddAlike(REPORTER, j.options, again, [ReporterArg(j)]);
    OrAddAlike(TLS_ENABLED, a, b, TlsArgs());
    NoGrowth(a, b);
    assert |again| == |multiset(again)| == |multiset(j.options)| == |j.options|;
    SameTail(j.options, a, BaseArgs(j, env), again, b, BaseArgs(k, env));
  }

  // --- Reading the ports from a printing ---------------------------------------------------

  /** All options that answer to the name read as one port. */
  ghost predicate Agreed(o: Opts, k: string, port: int) {
    forall x, y :: Answers(o, k, x) && Answers(o, k, y) ==>
        PortIn(Flags(x, o[x])[0], port) == PortIn(Flags(y, o[y])[0], port)
  }

  ghost predicate Answered(o: Opts, k: string) { exists x :: Answers(o, k, x) }

  /** An option that container() reads a port from: no '=' in its name, and not about the reporter. */
  predicate Readable(k: string) { '=' !in k && k != "" && k[0] != 'r' }

  ghost predicate AllReadable(f: PortOptions) {
    Readable(f.zipkin) && Readable(f.rest) && Readable(f.compact) && Readable(f.binary) && Readable(f.admin)
        && Readable(f.oldAdmin)
  }

  lemma NotInExtras(k: string, e: seq<string>)
    requires Readable(k) && forall x :: x in e ==> AboutReporter(x)
    ensures FindItem("--" + k + "=", e) == ""
  {
    assert ("--" + k + "=")[2] == k[0];
    FindItemAbsent("--" + k + "=", e);
  }

  lemma FoundBefore(k: string, p: seq<string>, e: seq<string>, port: int)
    requires Readable(k) && forall x :: x in e ==> AboutReporter(x)
    ensures FindItem("--" + k + "=", p + e) == FindItem("--" + k + "=", p)
    ensures GetPort("--" + k + "=", p + e, port) == GetPort("--" + k + "=", p, port)
  {
    NotInExtras(k, e);
    FindItemConcat("--" + k + "=", p, e);
  }

  lemma SamePort(o: Opts, k: string, p: seq<string>, q: seq<string>, port: int)
    requires Readable(k) && Printing(o, p) && Printing(o, q) && Agreed(o, k, port)
    ensures GetPort("--" + k + "=", p, port) == GetPort("--" + k + "=", q, port)
  {
    ReadFromPrinting(o, k, p, port);
    ReadFromPrinting(o, k, q, port);
  }

  /** Two orders in which the port is read differently. */
  lemma DifferentPort(o: Opts, k: string, port: int) returns (p: seq<string>, q: seq<string>)
    requires Readable(k) && !Agreed(o, k, port)
    ensures Printing(o, p) && Printing(o, q) && GetPort("--" + k + "=", p, port) != GetPort("--" + k + "=", q, port)
    ensures FindItem("--" + k + "=", p) != "" && FindItem("--" + k + "=", q) != ""
  {
    var x, y :| Answers(o, k, x) && Answers(o, k, y)
        && PortIn(Flags(x, o[x])[0], port) != PortIn(Flags(y, o[y])[0], port);
    p := AnswerPrintedFirst(o, k, x);
    q := AnswerPrintedFirst(o, k, y);
  }

  /** The admin port is read from the old option only when the new one is absent. */
  ghost predicate AdminAgreed(f: PortOptions, o: Opts) {
    if Answered(o, f.admin) then Agreed(o, f.admin, 14271) else Agreed(o, f.oldAdmin, 14271)
  }

  ghost predicate PortsAgreed(f: PortOptions, o: Opts) {
    && Agreed(o, f.zipkin, 5775) && Agreed(o, f.rest, 5778) && Agreed(o, f.compact, 6831) && Agreed(o, f.binary, 6832)
    && AdminAgreed(f, o)
  }

  lemma SameAdmin(f: PortOptions, o: Opts, p: seq<string>, q: seq<string>, e: seq<string>)
    requires AllReadable(f) && Printing(o, p) && Printing(o, q) && AdminAgreed(f, o) && forall x :: x in e ==>
               AboutReporter(x)
    ensures AdminFrom(f, p + e) == AdminFrom(f, q + e)
  {
    FoundBefore(f.admin, p, e, 14271);
    FoundBefore(f.admin, q, e, 14271);
    FoundBefore(f.oldAdmin, p, e, 14271);
    FoundBefore(f.oldAdmin, q, e, 14271);
    ReadFromPrinting(o, f.admin, p, 14271);
    ReadFromPrinting(o, f.admin, q, 14271);
    if Answered(o, f.admin) { SamePort(o, f.admin, p, q, 14271); } else { SamePort(o, f.oldAdmin, p, q, 14271); }
  }

  lemma SamePortWithExtras(o: Opts, k: string, p: seq<string>, q: seq<string>, e: seq<string>, port: int)
    requires Readable(k) && Printing(o, p) && Printing(o, q) && Agreed(o, k, port) && forall x :: x in e ==>
               AboutReporter(x)
    ensures GetPort("--" + k + "=", p + e, port) == GetPort("--" + k + "=", q + e, port)
  {
    FoundBefore(k, p, e, port);
    FoundBefore(k, q, e, port);
    SamePort(o, k, p, q, port);
  }

  lemma SamePorts(f: PortOptions, o: Opts, p: seq<string>, q: seq<string>, e: seq<string>)
    requires AllReadable(f) && Printing(o, p) && Printing(o, q) && PortsAgreed(f, o) && forall x :: x in e ==>
               AboutReporter(x)
    ensures PortsFrom(f, p + e) == PortsFrom(f, q + e)
  {
    SamePortWithExtras(o, f.zipkin, p, q, e, 5775);
    SamePortWithExtras(o, f.rest, p, q, e, 5778);
    SamePortWithExtras(o, f.compact, p, q, e, 6831);
    SamePortWithExtras(o, f.binary, p, q, e, 6832);
    SameAdmin(f, o, p, q, e);
  }

  lemma DifferentAdmin(f: PortOptions, o: Opts, e: seq<string>) returns (p: seq<string>, q: seq<string>)
    requires AllReadable(f) && !AdminAgreed(f, o) && forall x :: x in e ==> AboutReporter(x)
    ensures Printing(o, p) && Printing(o, q) && AdminFrom(f, p + e) != AdminFrom(f, q + e)
  {
    var k := if Answered(o, f.admin) then f.admin else f.oldAdmin;
    p, q := DifferentPort(o, k, 14271);
    FoundBefore(f.admin, p, e, 14271);
    FoundBefore(f.admin, q, e, 14271);
    FoundBefore(f.oldAdmin, p, e, 14271);
    FoundBefore(f.oldAdmin, q, e, 14271);
    ReadFromPrinting(o, f.admin, p, 14271);
    ReadFromPrinting(o, f.admin, q, 14271);
  }

  lemma DifferentWithExtras(o: Opts, k: string, e: seq<string>, port: int) returns (p: seq<string>, q: seq<string>)
    requires Readable(k) && !Agreed(o, k, port) && forall x :: x in e ==> AboutReporter(x)
    ensures Printing(o, p) && Printing(o, q)
              && GetPort("--" + k + "=", p + e, port) != GetPort("--" + k + "=", q + e, port)
  {
    p, q := DifferentPort(o, k, port);
    FoundBefore(k, p, e, port);
    FoundBefore(k, q, e, port);
  }

  lemma DifferentPorts(f: PortOptions, o: Opts, e: seq<string>) returns (p: seq<string>, q: seq<string>)
    requires AllReadable(f) && !PortsAgreed(f, o) && forall x :: x in e ==> AboutReporter(x)
    ensures Printing(o, p) && Printing(o, q) && PortsFrom(f, p + e) != PortsFrom(f, q + e)
  {
    if !Agreed(o, f.zipkin, 5775) {
      p, q := DifferentWithExtras(o, f.zipkin, e, 5775);
      assert PortsFrom(f, p + e)[0] != PortsFrom(f, q + e)[0];
    } else if !Agreed(o, f.rest, 5778) {
      p, q := DifferentWithExtras(o, f.rest, e, 5778);
      assert PortsFrom(f, p + e)[1] != PortsFrom(f, q + e)[1];
    } else if !Agreed(o, f.compact, 6831) {
      p, q := DifferentWithExtras(o, f.compact, e, 6831);
      assert PortsFrom(f, p + e)[2] != PortsFrom(f, q + e)[2];
    } else if !Agreed(o, f.binary, 6832) {
      p, q := DifferentWithExtras(o, f.binary, e, 6832);
      assert PortsFrom(f, p + e)[3] != PortsFrom(f, q + e)[3];
    } else {
      p, q := DifferentAdmin(f, o, e);
      assert PortsFrom(f, p + e)[4] != PortsFrom(f, q + e)[4];
    }
  }

  // --- Agents that differ in the order of their arguments ----------------------------------

  ghost predicate Alike(a: Agent, b: Agent) { b == a.(base := b.base) && multiset(a.base) == multiset(b.base) }

  lemma AlikeNeedTags(a: Agent, b: Agent)
    requires multiset(a.base) == multiset(b.base)
    ensures TagsNeeded(a) <==> TagsNeeded(b)
  {
    SamePresence(Tags.TAGS_FLAG, a.base, b.base);
  }

  lemma AlikeArgs(a: Agent, b: Agent, tags: Tags.TagMap)
    requires multiset(a.base) == multiset(b.base)
    ensures AgentArgs(a.base, tags) == AgentArgs(b.base, tags)
  {
    AlikeNeedTags(a, b);
    var flag := Tags.TAGS_FLAG + Tags.Printed(tags);
    SortOfPermutation(a.base + [flag], b.base + [flag]);
    SortOfPermutation(a.base, b.base);
  }

  /** Sorting hides the order: such agents inject the same. */
  lemma AlikeInject(a: Agent, b: Agent, data: ConfigData, d: Deployment)
    requires Alike(a, b) && Completes(a, d)
    ensures Completes(b, d) && InjectedBy(b, data, d) == InjectedBy(a, data, d)
  {
    AlikeNeedTags(a, b);
    if !AssignedElsewhere(a, d) { AlikeArgs(a, b, TagsFor(a, d)); }
  }

  /** The agent for one printing of the instance's options. */
  function Printed(j: Instance, env: Platform, args: seq<string>): Agent { AgentOf(j.(options := args), env) }

  lemma PrintedAlike(j: Instance, env: Platform, o: Opts, p: seq<string>, q: seq<string>)
    requires AllReadable(AgentPortOptions()) && Printing(o, p) && Printing(o, q) && PortsAgreed(AgentPortOptions(), o)
    ensures Alike(Printed(j, env, p), Printed(j, env, q))
  {
    PrintingBag(o, p);
    PrintingBag(o, q);
    var jp, jq := j.(options := p), j.(options := q);
    ExtrasAppended(jp, env);
    ExtrasAppended(jq, env);
    SameExtras(jp, env, q);
    assert jp.(options := q) == jq;
    var e := Extras(jp, env);
    SamePorts(AgentPortOptions(), o, p, q, e);
    WithOptions(j, env, p, p + e);
    WithOptions(j, env, q, q + e);
    SameAgent(j, env, p + e, q + e);
  }

  /** Nothing but the arguments depends on the options. */
  lemma WithOptions(j: Instance, env: Platform, p: seq<string>, base: seq<string>)
    ensures AgentWith(j.(options := p), env, base) == AgentWith(j, env, base)
  {
    assert AgentVolumes(j.(options := p), env) == AgentVolumes(j, env);
  }

  lemma SameAgent(j: Instance, env: Platform, a: seq<string>, b: seq<string>)
    requires multiset(a) == multiset(b) && PortsFrom(AgentPortOptions(), a) == PortsFrom(AgentPortOptions(), b)
    ensures Alike(AgentWith(j, env, a), AgentWith(j, env, b))
  {
    AdminIsLast(AgentPortOptions(), a);
    AdminIsLast(AgentPortOptions(), b);
  }

  lemma AdminIsLast(f: PortOptions, args: seq<string>)
    ensures PortsFrom(f, args)[4].number == AdminFrom(f, args)
  {
  }

  /** Injecting a second time, with the options printed in another order, completes and changes nothing. */
  ghost predicate Repeats(a: Agent, b: Agent, data: ConfigData, d: Deployment) {
    Completes(a, d) && Completes(b, InjectedBy(a, data, d))
        && InjectedBy(b, data, InjectedBy(a, data, d)) == InjectedBy(a, data, d)
  }

  /**
   Injecting the same instance again changes nothing, whatever orders the two calls print the
   agent's options in, although the second call decorates the agent, parses its tags back and
   appends volumes and pull secrets once more; provided that the options which answer to the name
   of a port agree on it. It holds for every instance name.
   */
  lemma InjectionIdempotent(j: Instance, env: Platform, o: Opts, p: seq<string>, q: seq<string>, data: ConfigData,
      d: Deployment)
    requires Printing(o, p) && Printing(o, q) && PortsAgreed(AgentPortOptions(), o)
    requires Completes(Printed(j, env, p), d) && SidecarLaws.NamesWithoutComma(d)
    ensures Repeats(Printed(j, env, p), Printed(j, env, q), data, d)
  {
    var a, b := Printed(j, env, p), Printed(j, env, q);
    PortOptionsReadable();
    PrintedAlike(j, env, o, p, q);
    SidecarLaws.InjectedTwice(a, data, d);
    AlikeInject(a, b, data, InjectedBy(a, data, d));
  }

  /** Without look-alikes there is nothing to disagree. */
  lemma PlainOptionsAgree(f: PortOptions, o: Opts)
    requires forall x :: x in o ==>
               && !Lookalike(f.zipkin, x) && !Lookalike(f.rest, x) && !Lookalike(f.compact, x)
                   && !Lookalike(f.binary, x)
               && !Lookalike(f.admin, x) && !Lookalike(f.oldAdmin, x)
    ensures PortsAgreed(f, o)
  {
  }

  lemma NotInBoth(c: char, a: string, b: string)
    requires c !in a && c !in b
    ensures c !in a + b
  {
  }

  lemma PortOptionsReadable()
    ensures AllReadable(AgentPortOptions())
  {
    ProcessorReadable("processor.zipkin-compact");
    ProcessorReadable("processor.jaeger-compact");
    ProcessorReadable("processor.jaeger-binary");
    OthersReadable();
  }

  lemma ProcessorReadable(name: string)
    requires Readable(name)
    ensures Readable(name + HOST_PORT)
  {
    NotInBoth('=', name, HOST_PORT);
  }

  lemma OthersReadable()
    ensures Readable("http-server.host-port") && Readable(ADMIN_HOST_PORT) && Readable(ADMIN_HTTP_PORT)
  {
  }

  /** The ports of the agent are those of the last injection. */
  lemma AgentPortsInjected(a: Agent, data: ConfigData, d: Deployment)
    requires a.definition.name == AGENT && Completes(a, d) && !AssignedElsewhere(a, d)
    ensures var cs := InjectedBy(a, data, d).containers;
            AgentIndex(cs) >= 0 && cs[AgentIndex(cs)].ports == a.definition.ports
  {
    SidecarLaws.PlaceShape(DecoratedContainers(d, data), AgentFor(a, data, d));
  }

  /**
   That is exactly when the order never shows: for an instance whose name is its label form, two
   injections agree for all orders of printing if and only if the options which answer to the name
   of a port agree on it.
   */
  lemma InjectionIdempotentIff(j: Instance, env: Platform, o: Opts, data: ConfigData, d: Deployment)
    requires Names.LabelForm(j.name) == j.name && SidecarLaws.NamesWithoutComma(d)
    requires forall p :: Printing(o, p) ==>
               Completes(Printed(j, env, p), d) && !AssignedElsewhere(Printed(j, env, p), d)
    ensures (forall p, q :: Printing(o, p) && Printing(o, q) ==>
              Repeats(Printed(j, env, p), Printed(j, env, q), data, d))
       <==> PortsAgreed(AgentPortOptions(), o)
  {
    PortOptionsReadable();
    if PortsAgreed(AgentPortOptions(), o) {
      forall p, q | Printing(o, p) && Printing(o, q) ensures Repeats(Printed(j, env, p), Printed(j, env, q), data, d) {
        InjectionIdempotent(j, env, o, p, q, data, d);
      }
    } else {
      var p, q := OrderShows(j, env, o, data, d);
      assert Printing(o, p) && Printing(o, q) && !Repeats(Printed(j, env, p), Printed(j, env, q), data, d);
    }
  }

  lemma OrderShows(j: Instance, env: Platform, o: Opts, data: ConfigData, d: Deployment)
    returns (p: seq<string>, q: seq<string>)
    requires AllReadable(AgentPortOptions()) && !PortsAgreed(AgentPortOptions(), o) && Names.LabelForm(j.name) == j.name
    requires forall p :: Printing(o, p) ==>
               Completes(Printed(j, env, p), d) && !AssignedElsewhere(Printed(j, env, p), d)
    ensures Printing(o, p) && Printing(o, q) && !Repeats(Printed(j, env, p), Printed(j, env, q), data, d)
  {
    p, q := OrdersOfPorts(j, env, o);
    var a, b := Printed(j, env, p), Printed(j, env, q);
    AgentPortsInjected(a, data, d);
    var d1 := InjectedBy(a, data, d);
    if Completes(b, d1) { AgentPortsInjected(b, data, d1); }
  }

  /** Two orders that give the agent different ports. */
  lemma OrdersOfPorts(j: Instance, env: Platform, o: Opts) returns (p: seq<string>, q: seq<string>)
    requires AllReadable(AgentPortOptions()) && !PortsAgreed(AgentPortOptions(), o)
    ensures Printing(o, p) && Printing(o, q)
              && Printed(j, env, p).definition.ports != Printed(j, env, q).definition.ports
  {
    var keys := SomeOrder(o.Keys);
    var some := PrintedBy(o, keys);
    assert Printing(o, some);
    var e := Extras(j.(options := some), env);
    ExtrasAppended(j.(options := some), env);
    p, q := DifferentPorts(AgentPortOptions(), o, e);
    PortsOfPrinted(j, env, o, some, p);
    PortsOfPrinted(j, env, o, some, q);
  }

  const REST := "http-server.host-port"

  /** An input at which the order shows: the port beside an option that starts like it. */
  lemma LookalikeDisagrees(o: Opts)
    requires o == map[REST := One(":1"), REST + "=x" := One("y")]
    ensures !PortsAgreed(AgentPortOptions(), o)
  {
    RestFlag();
    var x := REST + "=x";
    assert x != REST;
    assert Flags(REST, o[REST]) == [Flag(REST, ":1")] && Flags(x, o[x]) == [Flag(x, "y")];
    assert Answers(o, REST, REST) && Answers(o, REST, x);
    assert !Agreed(o, REST, 5778);
  }

  lemma RestFlag()
    ensures PortIn(Flag(REST, ":1"), 5778) == 1 && PortIn(Flag(REST + "=x", "y"), 5778) == 5778
    ensures Lookalike(REST, REST + "=x")
  {
    RestPlain();
    assert Flag(REST, ":1") == ("--" + REST + "=") + [':'] + "1";
    PortInReads("--" + REST + "=", "1", 5778);
    assert ParseInt32("1") == Some(1);
    assert ':' !in Flag(REST + "=x", "y");
  }

  lemma RestPlain()
    ensures ':' !in "--" + REST + "="
  {
  }

  /** There two injections with different orders do not agree. */
  lemma LookalikeShows(j: Instance, env: Platform, o: Opts, data: ConfigData, d: Deployment)
    returns (p: seq<string>, q: seq<string>)
    requires Names.LabelForm(j.name) == j.name && o == map[REST := One(":1"), REST + "=x" := One("y")]
    requires forall p :: Printing(o, p) ==>
               Completes(Printed(j, env, p), d) && !AssignedElsewhere(Printed(j, env, p), d)
    ensures Printing(o, p) && Printing(o, q) && !Repeats(Printed(j, env, p), Printed(j, env, q), data, d)
  {
    PortOptionsReadable();
    LookalikeDisagrees(o);
    p, q := OrderShows(j, env, o, data, d);
  }

  /** Whether injection completes does not depend on the order. */
  lemma PrintedSameNeeds(j: Instance, env: Platform, o: Opts, p: seq<string>, q: seq<string>, d: Deployment)
    requires Printing(o, p) && Printing(o, q)
    ensures Completes(Printed(j, env, p), d) <==> Completes(Printed(j, env, q), d)
    ensures AssignedElsewhere(Printed(j, env, p), d) <==> AssignedElsewhere(Printed(j, env, q), d)
  {
    SameBags(j, env, o, p, q);
    SameNeeds(Printed(j, env, p), Printed(j, env, q), d);
  }

  lemma SameNeeds(a: Agent, b: Agent, d: Deployment)
    requires a.instance == b.instance && multiset(a.base) == multiset(b.base)
    ensures Completes(a, d) <==> Completes(b, d)
    ensures AssignedElsewhere(a, d) <==> AssignedElsewhere(b, d)
  {
    AlikeNeedTags(a, b);
  }

  lemma SameBags(j: Instance, env: Platform, o: Opts, p: seq<string>, q: seq<string>)
    requires Printing(o, p) && Printing(o, q)
    ensures multiset(Printed(j, env, p).base) == multiset(Printed(j, env, q).base)
  {
    PrintingBag(o, p);
    PrintingBag(o, q);
    var jp, jq := j.(options := p), j.(options := q);
    ExtrasAppended(jp, env);
    ExtrasAppended(jq, env);
    SameExtras(jp, env, q);
    assert jp.(options := q) == jq;
    assert multiset(p + Extras(jp, env)) == multiset(q + Extras(jp, env));
  }

  lemma PortsOfPrinted(j: Instance, env: Platform, o: Opts, some: seq<string>, p: seq<string>)
    requires Printing(o, some) && Printing(o, p)
    ensures Printed(j, env, p).definition.ports == PortsFrom(AgentPortOptions(), p + Extras(j.(options := some), env))
  {
    PrintingBag(o, some);
    PrintingBag(o, p);
    var js := j.(options := some);
    SameExtras(js, env, p);
    assert js.(options := p) == j.(options := p);
    ExtrasAppended(j.(options := p), env);
  }
}
