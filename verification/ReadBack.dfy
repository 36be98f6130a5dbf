/** Reading ports back from printed options (pkg/util/util.go GetPort, GetAdminPort; apis/v1/options.go ToArgs). */
module ReadBack {
  import opened Text
  import opened Options
  import opened Arguments

  /** Every option that answers to the name would be read as `p`. */
  ghost predicate AllRead(o: Opts, k: string, p: int, port: int) {
    forall x :: Answers(o, k, x) ==> PortIn(Flags(x, o[x])[0], port) == p
  }

  lemma ReadFromPrinting(o: Opts, k: string, args: seq<string>, port: int)
    requires '=' !in k && Printing(o, args)
    ensures FindItem("--" + k + "=", args) == "" <==> forall x :: !Answers(o, k, x)
    ensures FindItem("--" + k + "=", args) != "" ==>
              exists x :: Answers(o, k, x) && GetPort("--" + k + "=", args, port) == PortIn(Flags(x, o[x])[0], port)
  {
    var keys :| IsOrder(keys, o.Keys) && args == PrintedBy(o, keys);
    FoundInPrinted(o, keys, k);
  }

  lemma AnswerPrintedFirst(o: Opts, k: string, x: string) returns (args: seq<string>)
    requires '=' !in k && Answers(o, k, x)
    ensures Printing(o, args) && FindItem("--" + k + "=", args) == Flags(x, o[x])[0] != ""
  {
    var keys := PrintedFirst(o, x);
    FirstIsFound(o, keys, k);
    args := PrintedBy(o, keys);
    ReadFromPrinting(o, k, args, 0);
  }

  /**
   An option that is there is read as `p` for every range order if and only if every option that
   answers to its name is.
   */
  lemma PortReadIff(o: Opts, k: string, p: int, port: int)
    requires '=' !in k && exists x :: Answers(o, k, x)
    ensures (forall args :: Printing(o, args) ==> GetPort("--" + k + "=", args, port) == p) <==> AllRead(o, k, p, port)
  {
    if AllRead(o, k, p, port) {
      forall args | Printing(o, args) ensures GetPort("--" + k + "=", args, port) == p {
        ReadFromPrinting(o, k, args, port);
      }
    } else {
      var x :| Answers(o, k, x) && PortIn(Flags(x, o[x])[0], port) != p;
      var args := AnswerPrintedFirst(o, k, x);
      assert Printing(o, args) && GetPort("--" + k + "=", args, port) != p;
    }
  }
}
