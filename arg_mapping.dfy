/**
 * The command-line argument handling the LLM driver uses: the free
 * `parseArgs` scanner over `name=value` tokens and the `ArgMapping`
 * registry of named arguments with their required flags, documentation
 * and parser.
 *
 * C strings are modelled without their terminating NUL: scanning for '='
 * stops at the end of the string where the C loop stops at the NUL.
 */
module Args {
  import opened Wrappers
  import opened Text

  /* ---------------- `name=value` tokens ---------------- */

  /** The index the scan for '=' stops at: the first '=', or the end. */
  function EqIndex(x: string): (j: nat)
    ensures j <= |x|
  {
    IndexOf(x, '=')
  }

  predicate HasEq(x: string) { EqIndex(x) < |x| }

  /** `std::string name(x, j)`: the text before the first '='. */
  function NameOf(x: string): string { x[..EqIndex(x)] }

  /** `x + j + 1`: the text after the first '='. */
  function ValueOf(x: string): string
    requires HasEq(x)
  {
    x[EqIndex(x) + 1..]
  }

  /** The value of the last token named n, if there is one. */
  function LastValue(tokens: seq<string>, n: string): Option<string>
    decreases |tokens|
  {
    if tokens == [] then None
    else if LastValue(tokens[1..], n).Some? then LastValue(tokens[1..], n)
    else if HasEq(tokens[0]) && NameOf(tokens[0]) == n then Some(ValueOf(tokens[0]))
    else None
  }

  /** The names the tokens give, up to the first '='. */
  function Names(tokens: seq<string>): set<string>
  {
    set i | 0 <= i < |tokens| :: NameOf(tokens[i])
  }

  /** The C loop `while (x[j] != '=' && x[j] != '\0') j++`. */
  method ScanEq(x: string) returns (j: nat)
    ensures j == EqIndex(x)
  {
    j := 0;
    while j < |x| && x[j] != '='
      invariant j <= |x|
      invariant forall k :: 0 <= k < j ==> x[k] != '='
    {
      j := j + 1;
    }
    IndexOfUnique(x, '=', j);
  }

  /** The first occurrence is the only index before which c does not occur and at which it does, or the end. */
  lemma {:induction false} IndexOfUnique(s: string, c: char, j: nat)
    requires j <= |s| && (j < |s| ==> s[j] == c)
    requires forall k :: 0 <= k < j ==> s[k] != c
    ensures IndexOf(s, c) == j
    decreases j
  {
    if j > 0 {
      IndexOfUnique(s[1..], c, j - 1);
    }
  }

  /* ---------------- `parseArgs` ---------------- */

  /** `argmap_t`: a name to a C string, `None` standing for NULL. */
  type ArgMap = map<string, Option<string>>

  /** A token `parseArgs` accepts: it has '=' and names a non-NULL entry. */
  predicate Good(x: string, m: ArgMap)
  {
    HasEq(x) && NameOf(x) in m && m[NameOf(x)].Some?
  }

  /**
   * `parseArgs` over the tokens after the program name: stop with false at
   * a token without '=', or at one whose name is NULL in the map (which
   * `operator[]` inserts as NULL when absent); otherwise overwrite that
   * name's entry with the text after '='.
   */
  function ParseArgsSpec(tokens: seq<string>, m: ArgMap): (bool, ArgMap)
    decreases |tokens|
  {
    if tokens == [] then (true, m)
    else
      var x := tokens[0];
      if !HasEq(x) then (false, m)
      else if NameOf(x) !in m then (false, m[NameOf(x) := None])
      else if m[NameOf(x)].None? then (false, m)
      else ParseArgsSpec(tokens[1..], m[NameOf(x) := Some(ValueOf(x))])
  }

  function Tail(argv: seq<string>, from: nat): seq<string>
  {
    if |argv| <= from then [] else argv[from..]
  }

  method ParseArgs(argv: seq<string>, argmap: ArgMap) returns (ok: bool, result: ArgMap)
    ensures (ok, result) == ParseArgsSpec(Tail(argv, 1), argmap)
  {
    result := argmap;
    var i := 1;
    while i < |argv|
      invariant 1 <= i <= if |argv| < 1 then 1 else |argv|
      invariant ParseArgsSpec(Tail(argv, 1), argmap) == ParseArgsSpec(Tail(argv, i), result)
    {
      var x := argv[i];
      assert Tail(argv, i)[0] == x && Tail(argv, i)[1..] == Tail(argv, i + 1);
      var j := ScanEq(x);
      if j == |x| {
        return false, result;
      }
      var name := x[..j];
      if name !in result {
        result := result[name := None];
        return false, result;
      }
      if result[name].None? {
        return false, result;
      }
      result := result[name := Some(x[j + 1..])];
      i := i + 1;
    }
    ok := true;
  }

  lemma GoodStable(x: string, m: ArgMap, n: string, v: string)
    requires n in m && m[n].Some?
    ensures Good(x, m[n := Some(v)]) == Good(x, m)
  {
  }

  /** `parseArgs` succeeds exactly when every token has '=' and names a non-NULL entry. */
  lemma {:induction false} ParseArgsOk(tokens: seq<string>, m: ArgMap)
    ensures ParseArgsSpec(tokens, m).0 <==> forall i :: 0 <= i < |tokens| ==> Good(tokens[i], m)
    decreases |tokens|
  {
    if tokens != [] {
      var x := tokens[0];
      if Good(x, m) {
        var m' := m[NameOf(x) := Some(ValueOf(x))];
        ParseArgsOk(tokens[1..], m');
        forall i | 0 <= i < |tokens| - 1 ensures Good(tokens[1..][i], m') == Good(tokens[i + 1], m) {
          GoodStable(tokens[i + 1], m, NameOf(x), ValueOf(x));
        }
      } else {
        assert !Good(tokens[0], m);
      }
    }
  }

  /**
   * On success no entry is added, each named entry holds the value of the
   * last token with its name, and the other entries are unchanged.
   */
  lemma {:induction false} ParseArgsValues(tokens: seq<string>, m: ArgMap, n: string)
    requires ParseArgsSpec(tokens, m).0
    ensures ParseArgsSpec(tokens, m).1.Keys == m.Keys
    ensures n in m ==> ParseArgsSpec(tokens, m).1[n] == if LastValue(tokens, n).Some? then LastValue(tokens, n) else m[n]
    decreases |tokens|
  {
    if tokens != [] {
      var x := tokens[0];
      var m' := m[NameOf(x) := Some(ValueOf(x))];
      ParseArgsValues(tokens[1..], m', n);
    }
  }

  /** At the first bad token `parseArgs` gives up, leaving that token's name NULL in the map. */
  lemma {:induction false} ParseArgsStops(tokens: seq<string>, m: ArgMap, k: nat)
    requires k < |tokens| && !Good(tokens[k], m)
    requires forall i :: 0 <= i < k ==> Good(tokens[i], m)
    ensures !ParseArgsSpec(tokens, m).0
    ensures HasEq(tokens[k]) ==> NameOf(tokens[k]) in ParseArgsSpec(tokens, m).1
    ensures HasEq(tokens[k]) ==> ParseArgsSpec(tokens, m).1[NameOf(tokens[k])] == None
    decreases k
  {
    if k > 0 {
      var x := tokens[0];
      var m' := m[NameOf(x) := Some(ValueOf(x))];
      forall i | 0 <= i < k - 1 ensures Good(tokens[1..][i], m') {
        GoodStable(tokens[i + 1], m, NameOf(x), ValueOf(x));
      }
      GoodStable(tokens[k], m, NameOf(x), ValueOf(x));
      ParseArgsStops(tokens[1..], m', k - 1);
    }
  }

  /* ---------------- `ArgMapping` ---------------- */

  /** The C++ type of the variable an argument is bound to. */
  datatype ArgType = StringArg | U64Arg | IntArg | BoolArg

  /** The value of such a variable. */
  datatype Value = Str(s: string) | Num(n: int) | Flag(b: bool)

  predicate HasType(v: Value, t: ArgType)
  {
    match t
    case StringArg => v.Str?
    case U64Arg => v.Num? && v.n >= 0
    case IntArg => v.Num?
    case BoolArg => v.Flag?
  }

  /**
   * `ArgProcessorDerived<T>::process`: a string variable takes the text as
   * it is; any other type goes through the stream extraction `sss >> *value`,
   * given here as `read`.
   */
  function Process(t: ArgType, s: string, read: (ArgType, string) -> Option<Value>): Option<Value>
  {
    if t == StringArg then Some(Str(s)) else read(t, s)
  }

  /** What `operator<<` prints for a variable's value; a bool prints as 0 or 1. */
  function Show(v: Value): string
  {
    match v
    case Str(s) => s
    case Num(n) => IntToString(n)
    case Flag(b) => if b then "1" else "0"
  }

  /** Whether the program carries on, or `exit(code)` ended it. */
  datatype Status = Running | Exited(code: int)

  /** A token `ArgMapping::parse` accepts. */
  predicate Accepted(x: string, procs: map<string, Option<ArgType>>, read: (ArgType, string) -> Option<Value>)
  {
    HasEq(x) && NameOf(x) in procs && procs[NameOf(x)].Some? &&
    Process(procs[NameOf(x)].value, ValueOf(x), read).Some?
  }

  datatype Scan = Scan(ok: bool, procs: map<string, Option<ArgType>>, values: map<string, Value>, provided: set<string>)

  /**
   * The token loop of `parse`: a token without '=' calls `usage`; its name
   * is recorded as provided; a name with no processor (inserted as NULL by
   * `operator[]` when absent) calls `usage`, and so does a failed
   * conversion; otherwise the bound variable takes the converted value.
   */
  function ScanSpec(procs: map<string, Option<ArgType>>, values: map<string, Value>, provided: set<string>,
                    tokens: seq<string>, read: (ArgType, string) -> Option<Value>): Scan
    decreases |tokens|
  {
    if tokens == [] then Scan(true, procs, values, provided)
    else
      var x := tokens[0];
      if !HasEq(x) then Scan(false, procs, values, provided)
      else
        var name := NameOf(x);
        var provided' := provided + {name};
        if name !in procs then Scan(false, procs[name := None], values, provided')
        else if procs[name].None? then Scan(false, procs, values, provided')
        else
          var v := Process(procs[name].value, ValueOf(x), read);
          if v.None? then Scan(false, procs, values, provided')
          else ScanSpec(procs, values[name := v.value], provided', tokens[1..], read)
  }

  /** The names flagged required and not provided. */
  function Missing(requiredArgs: map<string, bool>, provided: set<string>): set<string>
  {
    set n | n in requiredArgs && requiredArgs[n] && n !in provided
  }

  /** `parse`'s verdict: usage (exit status 0) on a bad token or a missing required name. */
  function ParseStatus(procs: map<string, Option<ArgType>>, values: map<string, Value>,
                       requiredArgs: map<string, bool>, argv: seq<string>,
                       read: (ArgType, string) -> Option<Value>): Status
  {
    var r := ScanSpec(procs, values, {}, Tail(argv, 2), read);
    if !r.ok || Missing(requiredArgs, r.provided) != {} then Exited(0) else Running
  }

  /** The keep-order filter of the documentation loop. */
  function Select(names: seq<string>, chosen: set<string>, keep: bool): seq<string>
  {
    if names == [] then []
    else (if (names[0] in chosen) == keep then [names[0]] else []) + Select(names[1..], chosen, keep)
  }

  /** One documentation line per name: tab, name, space-tab, its documentation text. */
  function DocLines(names: seq<string>, doc_dict: map<string, string>): string
  {
    if names == [] then ""
    else "\t" + names[0] + " \t" + (if names[0] in doc_dict then doc_dict[names[0]] else "") + "\n" +
         DocLines(names[1..], doc_dict)
  }

  /** `order` lists the keys of a map once each, in its iteration order. */
  ghost predicate IterationOrder<V>(order: seq<string>, m: map<string, V>)
  {
    (forall i, j :: 0 <= i < j < |order| ==> order[i] != order[j]) &&
    (forall x :: x in order <==> x in m)
  }

  const Banner := "=============================================\n"

  class ArgMapping {
    /** `map`: each name's processor, `None` for a NULL entry. */
    var procs: map<string, Option<ArgType>>
    /** The variables the processors write to, by argument name. */
    var values: map<string, Value>
    var doc_dict: map<string, string>
    var requiredArgs: map<string, bool>
    var doc: string

    constructor ()
      ensures procs == map[] && values == map[] && doc_dict == map[] && requiredArgs == map[] && doc == ""
    {
      procs := map[];
      values := map[];
      doc_dict := map[];
      requiredArgs := map[];
      doc := "";
    }

    /** The names `documentation` lists as required (`requiredArgs[name]`, false when absent). */
    function RequiredNames(): set<string>
      reads this
    {
      set n | n in requiredArgs && requiredArgs[n]
    }

    /** `arg(name, value, required = false)`: the name must be unregistered. */
    method Arg(name: string, t: ArgType, value: Value, required: bool)
      requires HasType(value, t)
      requires name !in procs || procs[name].None?
      modifies this
      ensures procs == old(procs)[name := Some(t)] && values == old(values)[name := value]
      ensures requiredArgs == old(requiredArgs)[name := required]
      ensures doc_dict == old(doc_dict) && doc == old(doc)
    {
      procs := procs[name := Some(t)];
      values := values[name := value];
      requiredArgs := requiredArgs[name := required];
    }

    /** `arg(name, value, doc1, required = false)`: also records doc1 and a line with the default. */
    method ArgDoc(name: string, t: ArgType, value: Value, doc1: string, required: bool)
      requires HasType(value, t)
      requires name !in procs || procs[name].None?
      modifies this
      ensures procs == old(procs)[name := Some(t)] && values == old(values)[name := value]
      ensures requiredArgs == old(requiredArgs)[name := required]
      ensures doc_dict == old(doc_dict)[name := doc1]
      ensures doc == old(doc) + "\t" + name + " \t" + doc1 + "  [ default=" + Show(value) + " ]" + "\n"
    {
      Arg(name, t, value, required);
      doc_dict := doc_dict[name := doc1];
      doc := doc + "\t" + name + " \t" + doc1 + "  [ default=" + Show(value) + " ]" + "\n";
    }

    /** `arg(name, value, doc1, info)`: optional, no `doc_dict` entry, `info` replacing the default. */
    method ArgInfo(name: string, t: ArgType, value: Value, doc1: string, info: Option<string>)
      requires HasType(value, t)
      requires name !in procs || procs[name].None?
      modifies this
      ensures procs == old(procs)[name := Some(t)] && values == old(values)[name := value]
      ensures requiredArgs == old(requiredArgs)[name := false]
      ensures doc_dict == old(doc_dict)
      ensures doc == old(doc) + "\t" + name + " \t" + doc1 +
                     (if info.Some? then "  [ default=" + info.value + " ]" + "\n" else "\n")
    {
      Arg(name, t, value, false);
      doc := doc + "\t" + name + " \t" + doc1;
      if info.Some? {
        doc := doc + "  [ default=" + info.value + " ]" + "\n";
      } else {
        doc := doc + "\n";
      }
    }

    /** `setRequired`: `exit(1)` for a name with no entry, else only its flag changes. */
    method SetRequired(name: string, required: bool) returns (status: Status)
      modifies this
      ensures name !in old(procs) ==> status == Exited(1) && requiredArgs == old(requiredArgs)
      ensures name in old(procs) ==> status == Running && requiredArgs == old(requiredArgs)[name := required]
      ensures procs == old(procs) && values == old(values) && doc_dict == old(doc_dict) && doc == old(doc)
    {
      if name !in procs {
        return Exited(1);
      }
      requiredArgs := requiredArgs[name := required];
      status := Running;
    }

    /**
     * `documentation()`, given the map's iteration order: the names whose
     * flag is set under "Required Arguments", the others under "Optional
     * Arguments", each in iteration order.
     */
    method Documentation(order: seq<string>) returns (text: string, requiredList: seq<string>, optionalList: seq<string>)
      requires IterationOrder(order, procs)
      ensures requiredList == Select(order, RequiredNames(), true)
      ensures optionalList == Select(order, RequiredNames(), false)
      ensures text == "Required Arguments:\n" + DocLines(requiredList, doc_dict) +
                      "\nOptional Arguments:\n" + DocLines(optionalList, doc_dict)
    {
      requiredList, optionalList := [], [];
      ghost var req := RequiredNames();
      var i := 0;
      while i < |order|
        invariant 0 <= i <= |order|
        invariant requiredList + Select(order[i..], req, true) == Select(order, req, true)
        invariant optionalList + Select(order[i..], req, false) == Select(order, req, false)
      {
        var name := order[i];
        assert order[i..][1..] == order[i + 1..];
        assert (name in req) == (name in requiredArgs && requiredArgs[name]);
        if name in requiredArgs && requiredArgs[name] {
          requiredList := requiredList + [name];
        } else {
          optionalList := optionalList + [name];
        }
        i := i + 1;
      }
      text := "Required Arguments:\n" + DocLines(requiredList, doc_dict) +
              "\nOptional Arguments:\n" + DocLines(optionalList, doc_dict);
    }

    /** `usage(prog)`: the banner, the usage line and the documentation on stderr, then `exit(0)`. */
    method Usage(prog: string, order: seq<string>) returns (message: string, status: Status)
      requires IterationOrder(order, procs)
      ensures status == Exited(0)
      ensures message == Banner + "Usage: " + prog + " [ name=value ]...\n" +
                         ("Required Arguments:\n" + DocLines(Select(order, RequiredNames(), true), doc_dict) +
                          "\nOptional Arguments:\n" + DocLines(Select(order, RequiredNames(), false), doc_dict)) +
                         Banner
    {
      var d, _, _ := Documentation(order);
      message := Banner + "Usage: " + prog + " [ name=value ]...\n" + d + Banner;
      status := Exited(0);
    }

    /**
     * `parse(argc, argv)`: the tokens after argv[1], then the check that
     * every required name was provided; every failure ends in `usage`.
     */
    method Parse(argv: seq<string>, read: (ArgType, string) -> Option<Value>) returns (status: Status)
      modifies this
      ensures status == ParseStatus(old(procs), old(values), old(requiredArgs), argv, read)
      ensures !ScanSpec(old(procs), old(values), {}, Tail(argv, 2), read).ok ==>
                procs == ScanSpec(old(procs), old(values), {}, Tail(argv, 2), read).procs
      ensures status == Running ==>
                (procs == old(procs) && values == ScanSpec(old(procs), old(values), {}, Tail(argv, 2), read).values)
      ensures requiredArgs == old(requiredArgs) && doc_dict == old(doc_dict) && doc == old(doc)
    {
      ghost var r := ScanSpec(procs, values, {}, Tail(argv, 2), read);
      var vals := values;
      var provided: set<string> := {};
      var i := 2;
      while i < |argv|
        invariant 2 <= i <= if |argv| < 2 then 2 else |argv|
        invariant ScanSpec(procs, vals, provided, Tail(argv, i), read) == r
        invariant procs == old(procs) && values == old(values) && requiredArgs == old(requiredArgs)
        invariant doc_dict == old(doc_dict) && doc == old(doc)
      {
        var x := argv[i];
        assert Tail(argv, i)[0] == x && Tail(argv, i)[1..] == Tail(argv, i + 1);
        var j := ScanEq(x);
        if j == |x| {
          return Exited(0);
        }
        var name := x[..j];
        var s := x[j + 1..];
        provided := provided + {name};
        if name !in procs {
          procs := procs[name := None];
          return Exited(0);
        }
        var ap := procs[name];
        if ap.None? {
          return Exited(0);
        }
        var v := Process(ap.value, s, read);
        if v.None? {
          return Exited(0);
        }
        vals := vals[name := v.value];
        i := i + 1;
      }
      values := vals;
      if Missing(requiredArgs, provided) != {} {
        return Exited(0);
      }
      status := Running;
    }
  }

  /* ---------------- Properties of `parse` ---------------- */

  /** The scan only records values; it succeeds exactly when every token is accepted. */
  lemma {:induction false} ScanOk(procs: map<string, Option<ArgType>>, values: map<string, Value>, provided: set<string>,
                                  tokens: seq<string>, read: (ArgType, string) -> Option<Value>)
    ensures ScanSpec(procs, values, provided, tokens, read).ok <==>
              forall i :: 0 <= i < |tokens| ==> Accepted(tokens[i], procs, read)
    ensures ScanSpec(procs, values, provided, tokens, read).ok ==>
              ScanSpec(procs, values, provided, tokens, read).procs == procs &&
              ScanSpec(procs, values, provided, tokens, read).provided == provided + Names(tokens)
    decreases |tokens|
  {
    if tokens != [] {
      var x := tokens[0];
      if Accepted(x, procs, read) {
        var v := Process(procs[NameOf(x)].value, ValueOf(x), read);
        ScanOk(procs, values[NameOf(x) := v.value], provided + {NameOf(x)}, tokens[1..], read);
        assert forall i :: 0 <= i < |tokens| - 1 ==> tokens[1..][i] == tokens[i + 1];
        assert Names(tokens) == {NameOf(x)} + Names(tokens[1..]) by {
          forall n | n in Names(tokens) ensures n in {NameOf(x)} + Names(tokens[1..]) {
            var i :| 0 <= i < |tokens| && n == NameOf(tokens[i]);
            if i > 0 {
              assert tokens[1..][i - 1] == tokens[i];
            }
          }
          forall n | n in Names(tokens[1..]) ensures n in Names(tokens) {
            var i :| 0 <= i < |tokens[1..]| && n == NameOf(tokens[1..][i]);
            assert tokens[1..][i] == tokens[i + 1];
          }
        }
      } else {
        assert !Accepted(tokens[0], procs, read);
      }
    }
  }

  /** After a successful scan each variable holds the conversion of its last token's value. */
  lemma {:induction false} ScanValues(procs: map<string, Option<ArgType>>, values: map<string, Value>, provided: set<string>,
                                      tokens: seq<string>, read: (ArgType, string) -> Option<Value>, n: string)
    requires ScanSpec(procs, values, provided, tokens, read).ok
    ensures LastValue(tokens, n).None? ==> MapGet(ScanSpec(procs, values, provided, tokens, read).values, n) == MapGet(values, n)
    ensures LastValue(tokens, n).Some? ==>
              (n in procs && procs[n].Some? &&
               MapGet(ScanSpec(procs, values, provided, tokens, read).values, n) ==
               Process(procs[n].value, LastValue(tokens, n).value, read))
    decreases |tokens|
  {
    if tokens != [] {
      var x := tokens[0];
      var v := Process(procs[NameOf(x)].value, ValueOf(x), read);
      ScanValues(procs, values[NameOf(x) := v.value], provided + {NameOf(x)}, tokens[1..], read, n);
    }
  }

  function MapGet(m: map<string, Value>, n: string): Option<Value>
  {
    if n in m then Some(m[n]) else None
  }

  /**
   * `parse` lets the program run exactly when every token is accepted and
   * every name flagged required appears among them; otherwise it exits
   * through `usage` with status 0.
   */
  lemma ParseRuns(procs: map<string, Option<ArgType>>, values: map<string, Value>,
                  requiredArgs: map<string, bool>, argv: seq<string>, read: (ArgType, string) -> Option<Value>)
    ensures var tokens := Tail(argv, 2);
            ParseStatus(procs, values, requiredArgs, argv, read) == Running <==>
              (forall i :: 0 <= i < |tokens| ==> Accepted(tokens[i], procs, read)) &&
              (forall n :: n in requiredArgs && requiredArgs[n] ==> n in Names(tokens))
    ensures ParseStatus(procs, values, requiredArgs, argv, read) != Running ==>
              ParseStatus(procs, values, requiredArgs, argv, read) == Exited(0)
  {
    var tokens := Tail(argv, 2);
    ScanOk(procs, values, {}, tokens, read);
    var r := ScanSpec(procs, values, {}, tokens, read);
    if r.ok {
      if Missing(requiredArgs, r.provided) != {} {
        var n :| n in Missing(requiredArgs, r.provided);
        assert n !in Names(tokens);
      }
    }
  }

  /** The documentation lists every registered name exactly once, in the section its flag picks. */
  lemma DocumentationPartition(order: seq<string>, procs: map<string, Option<ArgType>>, required: set<string>)
    requires IterationOrder(order, procs)
    ensures forall n :: n in procs ==> (n in Select(order, required, true) <==> n in required)
    ensures forall n :: n in procs ==> (n in Select(order, required, false) <==> n !in required)
    ensures multiset(Select(order, required, true)) + multiset(Select(order, required, false)) == multiset(order)
  {
    SelectSplit(order, required);
    forall n | n in procs
      ensures n in Select(order, required, true) <==> n in required
      ensures n in Select(order, required, false) <==> n !in required
    {
      SelectMembers(order, required, true, n);
      SelectMembers(order, required, false, n);
    }
  }

  lemma {:induction false} SelectMembers(names: seq<string>, chosen: set<string>, keep: bool, x: string)
    ensures x in Select(names, chosen, keep) <==> x in names && (x in chosen) == keep
    decreases |names|
  {
    if names != [] {
      SelectMembers(names[1..], chosen, keep, x);
      assert names == [names[0]] + names[1..];
    }
  }

  lemma {:induction false} SelectSplit(names: seq<string>, chosen: set<string>)
    ensures multiset(Select(names, chosen, true)) + multiset(Select(names, chosen, false)) == multiset(names)
    decreases |names|
  {
    if names != [] {
      SelectSplit(names[1..], chosen);
      assert names == [names[0]] + names[1..];
    }
  }
}
