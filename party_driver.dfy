/**
 * The LLM driver program: `main` registers the nine command-line
 * arguments, marks the ones the party's role requires, reads the
 * configuration file, parses the arguments and dispatches to the
 * cleartext or the secure run; `lt_main` is the secure run, given as the
 * sequence of backend actions each party performs.
 *
 * The role numbers come from the MPC backend, which is not part of this
 * model; they are taken here as 1, 2 and 3, and the properties rely only
 * on their being distinct and different from 0, the cleartext party.
 */
module PartyDriver {
  import opened Wrappers
  import opened Text
  import opened Args
  import LLMLibrary
  import LLMBase
  import Ring

  const DEALER := 1
  const SERVER := 2
  const CLIENT := 3

  /* ---------------- `atoi(argv[1])` ---------------- */

  predicate IsSpace(c: char) { c == ' ' || c == '\t' || c == '\n' || c == '\U{B}' || c == '\U{C}' || c == '\r' }

  function LeadingWhite(s: string): (k: nat)
    ensures k <= |s|
  {
    if s == [] || !IsSpace(s[0]) then 0 else 1 + LeadingWhite(s[1..])
  }

  function DigitRun(s: string): (k: nat)
    ensures k <= |s| && AllDigits(s[..k])
  {
    if s == [] || !IsDigit(s[0]) then 0
    else
      var k := 1 + DigitRun(s[1..]);
      assert s[..k] == [s[0]] + s[1..][..k - 1];
      k
  }

  /**
   * `atoi`: leading white space, an optional sign, then the longest run of
   * digits; 0 when there are none.
   */
  function Atoi(s: string): int
  {
    var t := s[LeadingWhite(s)..];
    var neg := |t| > 0 && t[0] == '-';
    var u := if |t| > 0 && (t[0] == '-' || t[0] == '+') then t[1..] else t;
    var v: int := DigitsValue(u[..DigitRun(u)]);
    if neg then -v else v
  }

  lemma {:induction false} DigitRunAll(s: string)
    requires AllDigits(s)
    ensures DigitRun(s) == |s|
    decreases |s|
  {
    if s != [] {
      DigitRunAll(s[1..]);
    }
  }

  /** The decimal form of a party number reads back as that number. */
  lemma AtoiRoundTrip(i: int)
    ensures Atoi(IntToString(i)) == i
  {
    var s := IntToString(i);
    assert LeadingWhite(s) == 0;
    if i < 0 {
      var d := NatToString(-i);
      assert s[1..] == d;
      DigitRunAll(d);
      assert d[..|d|] == d;
      NatToStringValue(-i);
    } else {
      var d := NatToString(i);
      assert s == d && !(d[0] == '-' || d[0] == '+');
      DigitRunAll(d);
      assert d[..|d|] == d;
      NatToStringValue(i);
    }
  }

  /* ---------------- The argument table ---------------- */

  /** The arguments `main` registers, with their variables' types. */
  const Registered: map<string, ArgType> := map[
    "wt_file" := StringArg, "in_file" := StringArg, "key_path" := StringArg, "ip" := StringArg,
    "n_seq" := U64Arg, "id" := StringArg, "nt" := IntArg, "no_reveal" := BoolArg, "ct_float" := BoolArg]

  /** The variables' initial values. */
  const Defaults: map<string, Value> := map[
    "wt_file" := Str(""), "in_file" := Str(""), "key_path" := Str("./"), "ip" := Str("127.0.0.1"),
    "n_seq" := Num(10), "id" := Str("0"), "nt" := Num(4), "no_reveal" := Flag(false), "ct_float" := Flag(false)]

  /** The arguments each party must give. */
  function RequiredFor(party: int): set<string>
  {
    if party == DEALER then {"n_seq", "key_path"}
    else if party == SERVER then {"wt_file", "key_path"}
    else if party == CLIENT then {"in_file", "key_path", "ip"}
    else if party == 0 then {"wt_file", "in_file"}
    else {}
  }

  /** The processor map after registration. */
  const Procs: map<string, Option<ArgType>> := map[
    "wt_file" := Some(StringArg), "in_file" := Some(StringArg), "key_path" := Some(StringArg),
    "ip" := Some(StringArg), "n_seq" := Some(U64Arg), "id" := Some(StringArg), "nt" := Some(IntArg),
    "no_reveal" := Some(BoolArg), "ct_float" := Some(BoolArg)]

  /** The required flags after registration: nothing required yet. */
  const NoneRequired: map<string, bool> := map[
    "wt_file" := false, "in_file" := false, "key_path" := false, "ip" := false, "n_seq" := false,
    "id" := false, "nt" := false, "no_reveal" := false, "ct_float" := false]

  /** The required flags after the role's `setRequired` calls. */
  function Flags(party: int): map<string, bool>
  {
    if party == DEALER then NoneRequired["n_seq" := true]["key_path" := true]
    else if party == SERVER then NoneRequired["wt_file" := true]["key_path" := true]
    else if party == CLIENT then NoneRequired["in_file" := true]["key_path" := true]["ip" := true]
    else if party == 0 then NoneRequired["wt_file" := true]["in_file" := true]
    else NoneRequired
  }

  /** The flags `main` sets mark exactly the role's required arguments, all of them registered. */
  lemma RequiredRegistered(party: int)
    ensures RequiredFor(party) <= Registered.Keys
    ensures Flags(party).Keys == Registered.Keys == Procs.Keys
    ensures forall n :: n in Flags(party) ==> (Flags(party)[n] <==> n in RequiredFor(party))
  {
    if party == DEALER {
    } else if party == SERVER {
    } else if party == CLIENT {
    } else if party == 0 {
    }
  }

  /* ---------------- Dispatch ---------------- */

  function StrArg(vals: map<string, Value>, n: string): string
  {
    if n in vals && vals[n].Str? then vals[n].s else ""
  }

  function NumArg(vals: map<string, Value>, n: string): int
  {
    if n in vals && vals[n].Num? then vals[n].n else 0
  }

  function FlagArg(vals: map<string, Value>, n: string): bool
  {
    n in vals && vals[n].Flag? && vals[n].b
  }

  /** The run `main` starts. */
  datatype Program =
    | CtMain(weights: string, input: string)
    | FloatMain(weights: string, input: string)
    | LtMain(party: int, weights: string, input: string, keyPath: string, ip: string,
             nSeq: int, id: string, nt: int, noReveal: bool)

  function Dispatch(party: int, vals: map<string, Value>): Program
  {
    if party == 0 then
      if FlagArg(vals, "ct_float") then FloatMain(StrArg(vals, "wt_file"), StrArg(vals, "in_file"))
      else CtMain(StrArg(vals, "wt_file"), StrArg(vals, "in_file"))
    else
      LtMain(party, StrArg(vals, "wt_file"), StrArg(vals, "in_file"), StrArg(vals, "key_path"),
             StrArg(vals, "ip"), NumArg(vals, "n_seq"), StrArg(vals, "id"), NumArg(vals, "nt"),
             FlagArg(vals, "no_reveal"))
  }

  /** Party 0 runs in the clear, as floats exactly when ct_float is set; every other party runs securely. */
  lemma DispatchCases(party: int, vals: map<string, Value>)
    ensures Dispatch(party, vals).LtMain? <==> party != 0
    ensures Dispatch(party, vals).FloatMain? <==> party == 0 && FlagArg(vals, "ct_float")
    ensures Dispatch(party, vals).CtMain? <==> party == 0 && !FlagArg(vals, "ct_float")
    ensures Dispatch(party, vals).LtMain? ==> Dispatch(party, vals).party == party
  {
  }

  /** What `main` does. */
  datatype Outcome =
    | ShortUsage            // fewer than two arguments: usage text, return 0
    | ConfigParseError      // the JSON parser's exception ends the program
    | Exit(code: int)       // `usage` or `setRequired` called `exit`
    | Ran(program: Program)

  /** `main`'s decision, from the command line and what reading the config file gives. */
  function MainSpec(argv: seq<string>, config: LLMLibrary.ConfigFile, read: (ArgType, string) -> Option<Value>): Outcome
  {
    if |argv| < 2 then ShortUsage
    else if config.Malformed? then ConfigParseError
    else
      var party := Atoi(argv[1]);
      var status := ParseStatus(Procs, Defaults, Flags(party), argv, read);
      if status.Exited? then Exit(status.code)
      else Ran(Dispatch(party, ScanSpec(Procs, Defaults, {}, Tail(argv, 2), read).values))
  }

  /** The nine `amap.arg` calls of `main`, in three groups. */
  method Register() returns (amap: ArgMapping)
    ensures fresh(amap)
    ensures amap.procs == Procs && amap.values == Defaults && amap.requiredArgs == NoneRequired
  {
    amap := new ArgMapping();
    RegisterFiles(amap);
    RegisterNetwork(amap);
    RegisterOptions(amap);
  }

  method RegisterFiles(amap: ArgMapping)
    requires amap.procs == map[] && amap.values == map[] && amap.requiredArgs == map[]
    modifies amap
    ensures amap.procs == map["wt_file" := Some(StringArg), "in_file" := Some(StringArg), "key_path" := Some(StringArg)]
    ensures amap.values == map["wt_file" := Str(""), "in_file" := Str(""), "key_path" := Str("./")]
    ensures amap.requiredArgs == map["wt_file" := false, "in_file" := false, "key_path" := false]
  {
    amap.ArgDoc("wt_file", StringArg, Str(""), "Weights file: fed by server", false);
    amap.ArgDoc("in_file", StringArg, Str(""), "Input file: fed by client", false);
    amap.ArgDoc("key_path", StringArg, Str("./"), "Path to key files: fed by all parties  [Default: ./]", false);
  }

  method RegisterNetwork(amap: ArgMapping)
    requires amap.procs.Keys == {"wt_file", "in_file", "key_path"}
    modifies amap
    ensures amap.procs == old(amap.procs)["ip" := Some(StringArg)]["n_seq" := Some(U64Arg)]["id" := Some(StringArg)]
    ensures amap.values == old(amap.values)["ip" := Str("127.0.0.1")]["n_seq" := Num(10)]["id" := Str("0")]
    ensures amap.requiredArgs == old(amap.requiredArgs)["ip" := false]["n_seq" := false]["id" := false]
  {
    amap.ArgDoc("ip", StringArg, Str("127.0.0.1"), "IP address of server: fed by client  [Default: 127.0.0.1]", false);
    amap.ArgDoc("n_seq", U64Arg, Num(10), "Number of sequences: fed by dealer", false);
    amap.ArgDoc("id", StringArg, Str("0"), "ID of party: fed by all parties  [Default: 0]", false);
  }

  method RegisterOptions(amap: ArgMapping)
    requires amap.procs.Keys == {"wt_file", "in_file", "key_path", "ip", "n_seq", "id"}
    modifies amap
    ensures amap.procs == old(amap.procs)["nt" := Some(IntArg)]["no_reveal" := Some(BoolArg)]["ct_float" := Some(BoolArg)]
    ensures amap.values == old(amap.values)["nt" := Num(4)]["no_reveal" := Flag(false)]["ct_float" := Flag(false)]
    ensures amap.requiredArgs == old(amap.requiredArgs)["nt" := false]["no_reveal" := false]["ct_float" := false]
  {
    amap.ArgDoc("nt", IntArg, Num(4), "Number of threads: fed by all parties  [Default: 4]", false);
    amap.ArgDoc("no_reveal", BoolArg, Flag(false), "Reveal output: fed by all parties  [Default: 0]", false);
    amap.ArgDoc("ct_float", BoolArg, Flag(false), "Use float for cleartext computation  [Default: 0]", false);
  }

  /** The role branches of `main` before the configuration is read; party 0 is handled after it. */
  method RequireRole(amap: ArgMapping, party: int)
    requires amap.procs == Procs && amap.requiredArgs == NoneRequired
    modifies amap
    ensures amap.procs == old(amap.procs) && amap.values == old(amap.values)
    ensures amap.requiredArgs == if party == 0 then NoneRequired else Flags(party)
  {
    var st: Status;
    if party == DEALER {
      st := amap.SetRequired("n_seq", true);
      st := amap.SetRequired("key_path", true);
    } else if party == SERVER {
      st := amap.SetRequired("wt_file", true);
      st := amap.SetRequired("key_path", true);
    } else if party == CLIENT {
      st := amap.SetRequired("in_file", true);
      st := amap.SetRequired("key_path", true);
      st := amap.SetRequired("ip", true);
    }
  }

  /** `main`. */
  method RunMain(argv: seq<string>, config: LLMLibrary.ConfigFile, read: (ArgType, string) -> Option<Value>,
              globals: LLMLibrary.Globals) returns (outcome: Outcome)
    modifies globals
    ensures outcome == MainSpec(argv, config, read)
    ensures |argv| < 2 ==> globals.Current() == old(globals.Current())
    ensures |argv| >= 2 ==> globals.Current() == LLMLibrary.ReadConfigSpec(old(globals.Current()), config)
  {
    if |argv| < 2 {
      return ShortUsage;
    }
    var party := Atoi(argv[1]);
    var amap := Register();
    RequireRole(amap, party);
    var parseError := globals.ReadConfig(config);
    if parseError {
      return ConfigParseError;
    }
    if party == 0 {
      var st := amap.SetRequired("wt_file", true);
      st := amap.SetRequired("in_file", true);
    }
    var status := amap.Parse(argv, read);
    if status.Exited? {
      return Exit(status.code);
    }
    outcome := Ran(Dispatch(party, amap.values));
  }

  /** Fewer than two arguments: usage and return, nothing parsed. */
  lemma ShortCommandLine(argv: seq<string>, config: LLMLibrary.ConfigFile, read: (ArgType, string) -> Option<Value>)
    ensures MainSpec(argv, config, read) == ShortUsage <==> |argv| < 2
  {
  }

  /** A run starts only when every argument the party's role requires was given. */
  lemma RunsHaveRequired(argv: seq<string>, config: LLMLibrary.ConfigFile, read: (ArgType, string) -> Option<Value>)
    requires MainSpec(argv, config, read).Ran?
    ensures RequiredFor(Atoi(argv[1])) <= Names(Tail(argv, 2))
    ensures MainSpec(argv, config, read).program == Dispatch(Atoi(argv[1]), ScanSpec(Procs, Defaults, {}, Tail(argv, 2), read).values)
  {
    var party := Atoi(argv[1]);
    ParseRuns(Procs, Defaults, Flags(party), argv, read);
    forall n | n in RequiredFor(party) ensures n in Names(Tail(argv, 2)) {
      assert n in Flags(party) && Flags(party)[n];
    }
  }

  /** Every exit from argument handling is `usage`'s status 0. */
  lemma ExitsAreUsage(argv: seq<string>, config: LLMLibrary.ConfigFile, read: (ArgType, string) -> Option<Value>)
    requires MainSpec(argv, config, read).Exit?
    ensures MainSpec(argv, config, read).code == 0
  {
    ParseRuns(Procs, Defaults, Flags(Atoi(argv[1])), argv, read);
  }

  /* ---------------- `lt_main` ---------------- */

  /** The backend calls of the secure run, with the arguments that matter. */
  datatype Action =
    | Configure(bitlength: nat, party: int, threads: int)   // LlamaConfig settings
    | Connect(ip: string, id: string, keyPath: string)      // llama->init
    | CreateModel(name: string)                             // model_factory.create(llm_version)
    | NullModelUsed                                         // net->init on the nullptr of an unknown name
    | HeadCheckFailed                                       // the attention constructor's always_assert
    | BindModel(scale: nat)                                 // net->init(scale), net->setBackend(llama)
    | SendNSeq(n: nat)
    | RecvNSeq
    | MakeInput(rows: nat, cols: nat)                       // Tensor<u64> input({n_seq, n_embd})
    | LoadWeights(file: string)
    | ZeroWeights
    | InitializePartyA
    | LoadInput(file: string, scale: nat)
    | InitializePartyB
    | Forward
    | OutputA
    | PrintOutput
    | OutputShares
    | WriteShares(file: string)
    | Finalize
    | AssertFailed                                          // get_n_seq's assert

  /** The party's `MakeInput` rows, and what the CLIENT's input file, stored as floats, holds. */
  function NSeqOf(p: Program, cfg: LLMLibrary.Config, inputBytes: nat, received: nat): nat
    requires p.LtMain?
  {
    if p.party == CLIENT then
      (if LLMLibrary.GetNSeq(inputBytes, cfg.n_embd).Some? then LLMLibrary.GetNSeq(inputBytes, cfg.n_embd).value else 0)
    else if p.party == SERVER then received
    else Ring.U64(p.nSeq)
  }

  /** `create(llm_version)` yields no usable model: the name is unregistered, or the head check aborts. */
  predicate CreateFails(cfg: LLMLibrary.Config)
  {
    cfg.llm_version !in LLMLibrary.Registry || LLMLibrary.AttentionAborts(cfg)
  }

  /** How a failed `create` ends the run. */
  function ModelFailure(cfg: LLMLibrary.Config): Action
  {
    if cfg.llm_version !in LLMLibrary.Registry then NullModelUsed else HeadCheckFailed
  }

  /** The CLIENT's `get_n_seq` assert fails. */
  predicate NSeqFails(p: Program, cfg: LLMLibrary.Config, inputBytes: nat)
    requires p.LtMain?
  {
    p.party == CLIENT && LLMLibrary.GetNSeq(inputBytes, cfg.n_embd).None?
  }

  /** The run stops before the forward pass. */
  predicate Aborts(p: Program, cfg: LLMLibrary.Config, inputBytes: nat)
    requires p.LtMain?
  {
    CreateFails(cfg) || NSeqFails(p, cfg, inputBytes)
  }

  function Setup(p: Program, cfg: LLMLibrary.Config): seq<Action>
    requires p.LtMain?
  {
    [Configure(50, p.party, p.nt), Connect(p.ip, p.id, p.keyPath), CreateModel(cfg.llm_version)]
  }

  /** The created model is initialised at the fixed-point scale and given the backend. */
  function Bind(cfg: LLMLibrary.Config): seq<Action>
  {
    [BindModel(cfg.scale)]
  }

  /** The exchange of the sequence count. */
  function Sourcing(p: Program, cfg: LLMLibrary.Config, inputBytes: nat, received: nat): seq<Action>
    requires p.LtMain?
  {
    if p.party == CLIENT then [SendNSeq(NSeqOf(p, cfg, inputBytes, received))]
    else if p.party == SERVER then [RecvNSeq]
    else []
  }

  /** The model's weights: loaded by the SERVER, zeroed by the DEALER. */
  function Provision(p: Program): seq<Action>
    requires p.LtMain?
  {
    if p.party == SERVER then [LoadWeights(p.weights)]
    else if p.party == DEALER then [ZeroWeights]
    else []
  }

  function ClientInput(p: Program, cfg: LLMLibrary.Config): seq<Action>
    requires p.LtMain?
  {
    if p.party == CLIENT then [LoadInput(p.input, cfg.scale)] else []
  }

  /** The output: revealed to all, or kept as shares. */
  function Reveal(p: Program): seq<Action>
    requires p.LtMain?
  {
    if !p.noReveal then
      [OutputA] + (if p.party == CLIENT then [PrintOutput] else [])
    else
      [OutputShares] + (if p.party == CLIENT || p.party == SERVER then [WriteShares("secret_shares.txt")] else [])
  }

  /** Everything before the forward pass. */
  function Preparation(p: Program, cfg: LLMLibrary.Config, inputBytes: nat, received: nat): seq<Action>
    requires p.LtMain?
  {
    Setup(p, cfg) + Bind(cfg) + Sourcing(p, cfg, inputBytes, received) + [MakeInput(NSeqOf(p, cfg, inputBytes, received), cfg.n_embd)] +
    Provision(p) + [InitializePartyA] + ClientInput(p, cfg) + [InitializePartyB]
  }

  /** Everything up to and including the forward pass. */
  function UpToForward(p: Program, cfg: LLMLibrary.Config, inputBytes: nat, received: nat): seq<Action>
    requires p.LtMain?
  {
    Preparation(p, cfg, inputBytes, received) + [Forward]
  }

  /** The backend calls of one party's secure run. */
  function LtTrace(p: Program, cfg: LLMLibrary.Config, inputBytes: nat, received: nat): seq<Action>
    requires p.LtMain?
  {
    if CreateFails(cfg) then Setup(p, cfg) + [ModelFailure(cfg)]
    else if NSeqFails(p, cfg, inputBytes) then Setup(p, cfg) + Bind(cfg) + [AssertFailed]
    else UpToForward(p, cfg, inputBytes, received) + Reveal(p) + [Finalize]
  }

  /**
   * `lt_main`: `inputBytes` is the size of the CLIENT's input file and
   * `received` the sequence count the SERVER receives from the CLIENT.
   */
  method LtMainRun(p: Program, cfg: LLMLibrary.Config, inputBytes: nat, received: nat) returns (trace: seq<Action>)
    requires p.LtMain?
    ensures trace == LtTrace(p, cfg, inputBytes, received)
  {
    trace := [Configure(50, p.party, p.nt), Connect(p.ip, p.id, p.keyPath), CreateModel(cfg.llm_version)];
    var factory := new LLMLibrary.ModelFactory();
    var net := factory.Create(cfg.llm_version, cfg);
    if net.NullModel? {
      trace := trace + [NullModelUsed];
      return;
    } else if net.Aborted? {
      trace := trace + [HeadCheckFailed];
      return;
    }
    trace := trace + [BindModel(cfg.scale)];
    var n_seq: nat := Ring.U64(p.nSeq);
    if p.party == CLIENT {
      var n := LLMLibrary.GetNSeq(inputBytes, cfg.n_embd);
      if n.None? {
        trace := trace + [AssertFailed];
        return;
      }
      n_seq := n.value;
      trace := trace + [SendNSeq(n_seq)];
    } else if p.party == SERVER {
      trace := trace + [RecvNSeq];
      n_seq := received;
    }
    assert n_seq == NSeqOf(p, cfg, inputBytes, received);
    assert trace == Setup(p, cfg) + Bind(cfg) + Sourcing(p, cfg, inputBytes, received);
    trace := trace + [MakeInput(n_seq, cfg.n_embd)];
    if p.party == SERVER {
      trace := trace + [LoadWeights(p.weights)];
    } else if p.party == DEALER {
      trace := trace + [ZeroWeights];
    }
    trace := trace + [InitializePartyA];
    if p.party == CLIENT {
      trace := trace + [LoadInput(p.input, cfg.scale)];
    }
    trace := trace + [InitializePartyB];
    assert trace == Preparation(p, cfg, inputBytes, received);
    trace := trace + [Forward];
    ghost var before := trace;
    if !p.noReveal {
      trace := trace + [OutputA];
      if p.party == CLIENT {
        trace := trace + [PrintOutput];
      }
    } else {
      trace := trace + [OutputShares];
      if p.party == CLIENT || p.party == SERVER {
        trace := trace + [WriteShares("secret_shares.txt")];
      }
    }
    assert trace == before + Reveal(p);
    trace := trace + [Finalize];
  }

  predicate IsLoad(a: Action) { a.LoadWeights? || a.ZeroWeights? || a.LoadInput? }

  predicate IsOutput(a: Action) { a.OutputA? || a.PrintOutput? || a.OutputShares? || a.WriteShares? }

  /** An action is in the trace exactly when it is in one of its segments. */
  lemma TraceMembers(p: Program, cfg: LLMLibrary.Config, inputBytes: nat, received: nat, a: Action)
    requires p.LtMain?
    ensures CreateFails(cfg) ==>
              (a in LtTrace(p, cfg, inputBytes, received) <==> a in Setup(p, cfg) || a == ModelFailure(cfg))
    ensures !CreateFails(cfg) && NSeqFails(p, cfg, inputBytes) ==>
              (a in LtTrace(p, cfg, inputBytes, received) <==> a in Setup(p, cfg) || a in Bind(cfg) || a == AssertFailed)
    ensures !Aborts(p, cfg, inputBytes) ==>
              (a in LtTrace(p, cfg, inputBytes, received) <==>
                 a in Preparation(p, cfg, inputBytes, received) || a == Forward || a in Reveal(p) || a == Finalize)
  {
    if !Aborts(p, cfg, inputBytes) {
      var prep := Preparation(p, cfg, inputBytes, received);
      assert LtTrace(p, cfg, inputBytes, received) == prep + [Forward] + Reveal(p) + [Finalize];
    }
  }

  /** An action is in the preparation exactly when it is in one of its segments. */
  lemma PreparationMembers(p: Program, cfg: LLMLibrary.Config, inputBytes: nat, received: nat, a: Action)
    requires p.LtMain?
    ensures a in Preparation(p, cfg, inputBytes, received) <==>
              a in Setup(p, cfg) || a in Bind(cfg) || a in Sourcing(p, cfg, inputBytes, received) ||
              a == MakeInput(NSeqOf(p, cfg, inputBytes, received), cfg.n_embd) || a in Provision(p) ||
              a == InitializePartyA || a in ClientInput(p, cfg) || a == InitializePartyB
  {
  }

  /** The weights are the SERVER's to load and the DEALER's to zero; nobody else touches them. */
  lemma WeightsByRole(p: Program, cfg: LLMLibrary.Config, inputBytes: nat, received: nat)
    requires p.LtMain?
    ensures (exists a :: a in LtTrace(p, cfg, inputBytes, received) && a.LoadWeights?) <==>
              p.party == SERVER && !CreateFails(cfg)
    ensures (ZeroWeights in LtTrace(p, cfg, inputBytes, received)) <==> p.party == DEALER && !CreateFails(cfg)
    ensures p.party == SERVER && !CreateFails(cfg) ==> LoadWeights(p.weights) in LtTrace(p, cfg, inputBytes, received)
  {
    var t := LtTrace(p, cfg, inputBytes, received);
    if a :| a in t && a.LoadWeights? {
      TraceMembers(p, cfg, inputBytes, received, a);
      PreparationMembers(p, cfg, inputBytes, received, a);
    }
    TraceMembers(p, cfg, inputBytes, received, LoadWeights(p.weights));
    PreparationMembers(p, cfg, inputBytes, received, LoadWeights(p.weights));
    TraceMembers(p, cfg, inputBytes, received, ZeroWeights);
    PreparationMembers(p, cfg, inputBytes, received, ZeroWeights);
  }

  /**
   * The run stops early in exactly three ways: an unregistered model name
   * leaves `net` null, a bad head count aborts the model's construction,
   * and, once a model exists, the CLIENT's input file may not be a whole
   * number of rows. Every other run is finalized.
   */
  lemma AbortsIff(p: Program, cfg: LLMLibrary.Config, inputBytes: nat, received: nat)
    requires p.LtMain?
    ensures (NullModelUsed in LtTrace(p, cfg, inputBytes, received)) <==> cfg.llm_version !in LLMLibrary.Registry
    ensures (HeadCheckFailed in LtTrace(p, cfg, inputBytes, received)) <==>
              cfg.llm_version in LLMLibrary.Registry && cfg.n_layer > 0 && !LLMBase.HeadsDivide(cfg.n_embd, cfg.n_head)
    ensures (AssertFailed in LtTrace(p, cfg, inputBytes, received)) <==>
              !CreateFails(cfg) && p.party == CLIENT && !(cfg.n_embd > 0 && inputBytes % (4 * cfg.n_embd) == 0)
    ensures (Finalize in LtTrace(p, cfg, inputBytes, received)) <==>
              cfg.llm_version in LLMLibrary.Registry && !(cfg.n_layer > 0 && !LLMBase.HeadsDivide(cfg.n_embd, cfg.n_head)) &&
              !(p.party == CLIENT && !(cfg.n_embd > 0 && inputBytes % (4 * cfg.n_embd) == 0))
  {
    var t := LtTrace(p, cfg, inputBytes, received);
    if CreateFails(cfg) {
      assert t == Setup(p, cfg) + [ModelFailure(cfg)];
    } else if NSeqFails(p, cfg, inputBytes) {
      assert t == Setup(p, cfg) + Bind(cfg) + [AssertFailed];
    } else {
      var prep := Preparation(p, cfg, inputBytes, received);
      assert t == prep + [Forward] + Reveal(p) + [Finalize];
      PreparationQuiet(p, cfg, inputBytes, received);
      PreparationEndsWell(p, cfg, inputBytes, received);
      assert forall a :: a in Reveal(p) ==> IsOutput(a);
    }
  }

  /** No failure action and no `finalize` happens during the preparation. */
  lemma PreparationEndsWell(p: Program, cfg: LLMLibrary.Config, inputBytes: nat, received: nat)
    requires p.LtMain?
    ensures NullModelUsed !in Preparation(p, cfg, inputBytes, received)
    ensures HeadCheckFailed !in Preparation(p, cfg, inputBytes, received)
    ensures AssertFailed !in Preparation(p, cfg, inputBytes, received)
    ensures Finalize !in Preparation(p, cfg, inputBytes, received)
  {
    PreparationMembers(p, cfg, inputBytes, received, NullModelUsed);
    PreparationMembers(p, cfg, inputBytes, received, HeadCheckFailed);
    PreparationMembers(p, cfg, inputBytes, received, AssertFailed);
    PreparationMembers(p, cfg, inputBytes, received, Finalize);
  }

  /** Only the CLIENT loads the input, and only once its size checked out. */
  lemma InputByRole(p: Program, cfg: LLMLibrary.Config, inputBytes: nat, received: nat)
    requires p.LtMain?
    ensures (exists a :: a in LtTrace(p, cfg, inputBytes, received) && a.LoadInput?) <==>
              p.party == CLIENT && !Aborts(p, cfg, inputBytes)
    ensures p.party == CLIENT && !Aborts(p, cfg, inputBytes) ==>
              LoadInput(p.input, cfg.scale) in LtTrace(p, cfg, inputBytes, received)
  {
    var t := LtTrace(p, cfg, inputBytes, received);
    if a :| a in t && a.LoadInput? {
      TraceMembers(p, cfg, inputBytes, received, a);
      PreparationMembers(p, cfg, inputBytes, received, a);
    }
    TraceMembers(p, cfg, inputBytes, received, LoadInput(p.input, cfg.scale));
    PreparationMembers(p, cfg, inputBytes, received, LoadInput(p.input, cfg.scale));
  }

  /**
   * The input tensor has `n_embd` columns and as many rows as the party's
   * sequence count: the CLIENT's from its file, which it also sends, the
   * SERVER's as received.
   */
  lemma InputShape(p: Program, cfg: LLMLibrary.Config, inputBytes: nat, received: nat)
    requires p.LtMain?
    ensures forall r, c :: MakeInput(r, c) in LtTrace(p, cfg, inputBytes, received) ==>
              c == cfg.n_embd && r == NSeqOf(p, cfg, inputBytes, received)
    ensures p.party == CLIENT && !Aborts(p, cfg, inputBytes) ==>
              NSeqOf(p, cfg, inputBytes, received) * (4 * cfg.n_embd) == inputBytes &&
              SendNSeq(NSeqOf(p, cfg, inputBytes, received)) in LtTrace(p, cfg, inputBytes, received)
    ensures p.party == SERVER ==> NSeqOf(p, cfg, inputBytes, received) == received
  {
    forall r, c | MakeInput(r, c) in LtTrace(p, cfg, inputBytes, received)
      ensures c == cfg.n_embd && r == NSeqOf(p, cfg, inputBytes, received)
    {
      TraceMembers(p, cfg, inputBytes, received, MakeInput(r, c));
      PreparationMembers(p, cfg, inputBytes, received, MakeInput(r, c));
    }
    var n := NSeqOf(p, cfg, inputBytes, received);
    TraceMembers(p, cfg, inputBytes, received, SendNSeq(n));
    PreparationMembers(p, cfg, inputBytes, received, SendNSeq(n));
  }

  /** Revealed, every party learns the output and the CLIENT prints it; else the parties keep shares. */
  lemma RevealByFlag(p: Program, cfg: LLMLibrary.Config, inputBytes: nat, received: nat)
    requires p.LtMain? && !Aborts(p, cfg, inputBytes)
    ensures (OutputA in LtTrace(p, cfg, inputBytes, received)) <==> !p.noReveal
    ensures (PrintOutput in LtTrace(p, cfg, inputBytes, received)) <==> !p.noReveal && p.party == CLIENT
    ensures (OutputShares in LtTrace(p, cfg, inputBytes, received)) <==> p.noReveal
    ensures (WriteShares("secret_shares.txt") in LtTrace(p, cfg, inputBytes, received)) <==>
              p.noReveal && (p.party == CLIENT || p.party == SERVER)
  {
    PreparationQuiet(p, cfg, inputBytes, received);
    TraceMembers(p, cfg, inputBytes, received, OutputA);
    TraceMembers(p, cfg, inputBytes, received, PrintOutput);
    TraceMembers(p, cfg, inputBytes, received, OutputShares);
    TraceMembers(p, cfg, inputBytes, received, WriteShares("secret_shares.txt"));
  }

  lemma PreparationQuiet(p: Program, cfg: LLMLibrary.Config, inputBytes: nat, received: nat)
    requires p.LtMain?
    ensures forall a :: a in Preparation(p, cfg, inputBytes, received) ==> a != Forward && !IsOutput(a)
  {
    forall a | a in Preparation(p, cfg, inputBytes, received) ensures a != Forward && !IsOutput(a) {
      PreparationMembers(p, cfg, inputBytes, received, a);
    }
  }

  lemma RevealQuiet(p: Program)
    requires p.LtMain?
    ensures forall a :: a in Reveal(p) + [Finalize] ==> a != Forward && !IsLoad(a)
  {
    assert forall a :: a in Reveal(p) ==> IsOutput(a);
  }

  /** Once: everything is loaded before the forward pass and nothing is output before it. */
  lemma ForwardOrder(p: Program, cfg: LLMLibrary.Config, inputBytes: nat, received: nat)
    requires p.LtMain? && !Aborts(p, cfg, inputBytes)
    ensures exists before, after ::
              LtTrace(p, cfg, inputBytes, received) == before + [Forward] + after &&
              Forward !in before && Forward !in after &&
              (forall a :: a in after ==> !IsLoad(a)) && (forall a :: a in before ==> !IsOutput(a))
  {
    var before := Preparation(p, cfg, inputBytes, received);
    var after := Reveal(p) + [Finalize];
    PreparationQuiet(p, cfg, inputBytes, received);
    RevealQuiet(p);
    assert LtTrace(p, cfg, inputBytes, received) == before + [Forward] + after;
    assert Forward !in before && Forward !in after;
  }
}
