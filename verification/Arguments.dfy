/** Reading and replacing command-line arguments (pkg/util/util.go). */
module Arguments {
  import opened Text

  /** The number after the first ':' of the argument; else the default. */
  function PortIn(arg: string, port: int): int {
    if ':' !in arg then port
    else
      var parsed := ParseInt32(arg[IndexOf(arg, ':') + 1..]);
      if parsed.Some? then parsed.value else port
  }

  /** The port in the first argument with the prefix. */
  function GetPort(prefix: string, args: seq<string>, port: int): int { PortIn(FindItem(prefix, args), port) }

  /** A host-port argument without host gives the number after its colon. */
  lemma PortInReads(prefix: string, v: string, port: int)
    requires ':' !in prefix
    ensures PortIn(prefix + [':'] + v, port) == (if ParseInt32(v).Some? then ParseInt32(v).value else port)
  {
    var arg := prefix + [':'] + v;
    assert arg[..|prefix|] == prefix && arg[|prefix|] == ':';
    IndexOfIs(arg, ':', |prefix|);
    assert arg[|prefix| + 1..] == v;
  }

  const ADMIN_HOST_PORT := "admin.http.host-port"
  const ADMIN_HTTP_PORT := "admin-http-port"

  function GetAdminPort(args: seq<string>, port: int): int {
    FirstPort("--" + ADMIN_HOST_PORT + "=", "--" + ADMIN_HTTP_PORT + "=", args, port)
  }

  /** The port from the new flag when it is there, else from the one it replaced. */
  function FirstPort(prefix: string, replaced: string, args: seq<string>, port: int): int {
    if FindItem(prefix, args) != "" then GetPort(prefix, args, port) else GetPort(replaced, args, port)
  }

  function Replaced(prefix: string, value: string, args: seq<string>): (r: seq<string>)
    ensures |r| == |args|
  {
    seq(|args|, i requires 0 <= i < |args| => if prefix <= args[i] then value else args[i])
  }

  /** ReplaceArgument works on the slice in place and counts its replacements. */
  method ReplaceArgument(prefix: string, value: string, args: array<string>) returns (found: nat)
    modifies args
    ensures args[..] == Replaced(prefix, value, old(args[..]))
    ensures found > 0 <==> exists a :: a in old(args[..]) && prefix <= a
  {
    found := 0;
    for i := 0 to args.Length
      invariant forall j :: 0 <= j < i ==> args[j] == Replaced(prefix, value, old(args[..]))[j]
      invariant forall j :: i <= j < args.Length ==> args[j] == old(args[j])
      invariant found > 0 <==> exists j :: 0 <= j < i && prefix <= old(args[j])
    {
      if prefix <= args[i] {
        args[i] := value;
        found := found + 1;
      }
    }
    if found > 0 {
      ghost var j :| 0 <= j < args.Length && prefix <= old(args[j]);
      assert old(args[..])[j] in old(args[..]);
    }
  }
}
