/** `web/src/lib/utils.ts`: the class-name joiner `cn` and the two enumerations. */
module Utils {

  /** An argument of `cn`: `string | false | null | undefined`. */
  datatype ClassArg = Text(s: string) | FalseArg | NullArg | UndefinedArg

  /** JavaScript truthiness of an argument: only a non-empty string survives `filter(Boolean)`. */
  predicate Truthy(a: ClassArg) {
    a.Text? && a.s != ""
  }

  /** `classes.filter(Boolean)`, read back as the strings that survive. */
  function Kept(args: seq<ClassArg>): (r: seq<string>)
    ensures |r| <= |args|
    ensures forall i :: 0 <= i < |r| ==> r[i] != ""
  {
    if args == [] then []
    else (if Truthy(args[0]) then [args[0].s] else []) + Kept(args[1..])
  }

  /** `parts.join(sep)`. */
  function Join(parts: seq<string>, sep: string): string {
    if parts == [] then ""
    else if |parts| == 1 then parts[0]
    else parts[0] + sep + Join(parts[1..], sep)
  }

  function Cn(args: seq<ClassArg>): string {
    Join(Kept(args), " ")
  }

  function TotalLength(parts: seq<string>): nat {
    if parts == [] then 0 else |parts[0]| + TotalLength(parts[1..])
  }

  /** Filtering keeps argument order: the survivors of `a + b` are those of `a`, then those of `b`. */
  lemma {:induction false} KeptAppend(a: seq<ClassArg>, b: seq<ClassArg>)
    ensures Kept(a + b) == Kept(a) + Kept(b)
  {
    if a == [] {
      assert a + b == b;
    } else {
      assert (a + b)[0] == a[0];
      assert (a + b)[1..] == a[1..] + b;
      KeptAppend(a[1..], b);
    }
  }

  /** A string survives the filter exactly when it is an argument that is a non-empty string. */
  lemma {:induction false} KeptMembers(args: seq<ClassArg>, s: string)
    ensures s in Kept(args) <==> s != "" && Text(s) in args
  {
    if args != [] {
      KeptMembers(args[1..], s);
      assert args == [args[0]] + args[1..];
    }
  }

  /** Joining two non-empty lists puts exactly one separator between their joins. */
  lemma {:induction false} JoinAppend(a: seq<string>, b: seq<string>, sep: string)
    requires a != [] && b != []
    ensures Join(a + b, sep) == Join(a, sep) + sep + Join(b, sep)
  {
    if |a| == 1 {
      assert (a + b)[0] == a[0];
      assert (a + b)[1..] == b;
    } else {
      assert (a + b)[0] == a[0];
      assert (a + b)[1..] == a[1..] + b;
      JoinAppend(a[1..], b, sep);
    }
  }

  /** The joined string is the classes plus one separator between each neighbouring pair. */
  lemma {:induction false} JoinLength(parts: seq<string>, sep: string)
    requires parts != []
    ensures |Join(parts, sep)| == TotalLength(parts) + (|parts| - 1) * |sep|
  {
    if |parts| > 1 {
      JoinLength(parts[1..], sep);
    } else {
      assert parts[1..] == [];
    }
  }

  /** `cn(...a, ...b)` is `cn(...a) + " " + cn(...b)` when both sides keep a class. */
  lemma CnAppend(a: seq<ClassArg>, b: seq<ClassArg>)
    requires Kept(a) != [] && Kept(b) != []
    ensures Cn(a + b) == Cn(a) + " " + Cn(b)
  {
    KeptAppend(a, b);
    JoinAppend(Kept(a), Kept(b), " ");
  }

  /** With no truthy argument the result is the empty string. */
  lemma {:induction false} CnNoTruthy(args: seq<ClassArg>)
    requires forall i :: 0 <= i < |args| ==> !Truthy(args[i])
    ensures Cn(args) == ""
  {
    if args != [] {
      assert forall i :: 0 <= i < |args[1..]| ==> args[1..][i] == args[i + 1];
      CnNoTruthy(args[1..]);
    }
  }

  /** Falsy arguments are dropped wherever they stand. */
  lemma CnDropsFalsy(a: seq<ClassArg>, x: ClassArg, b: seq<ClassArg>)
    requires !Truthy(x)
    ensures Cn(a + [x] + b) == Cn(a + b)
  {
    KeptAppend(a + [x], b);
    KeptAppend(a, [x]);
    KeptAppend(a, b);
    assert Kept([x]) == [] by { assert [x][1..] == []; }
    assert Kept(a + [x] + b) == Kept(a + b);
  }

  /** A single non-empty class comes back unchanged. */
  lemma CnSingle(s: string)
    requires s != ""
    ensures Cn([Text(s)]) == s
  {
    assert [Text(s)][1..] == [];
  }

  const TransactionTypes: seq<string> :=
    ["phoneline_charging", "phoneline_payment", "shahid_subscription", "netflix_subscription"]

  const PaymentMethods: seq<string> := ["whish", "cash"]

  lemma EnumerationsDistinct()
    ensures |TransactionTypes| == 4
    ensures forall i, j :: 0 <= i < j < |TransactionTypes| ==> TransactionTypes[i] != TransactionTypes[j]
    ensures PaymentMethods == ["whish", "cash"] && PaymentMethods[0] != PaymentMethods[1]
  {
  }
}
