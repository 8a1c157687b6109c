/**
 * The LLM library's configuration: the global model parameters and their
 * defaults, `read_config` overlaying a parsed JSON object onto them, the
 * `ModelFactory` registry from model names to constructors, and
 * `get_n_seq`, which turns an input file's byte count into a sequence
 * length.
 */
module LLMLibrary {
  import opened Wrappers
  import opened Graph
  import opened LLMBase
  import Bert
  import Gpt2
  import GptNeo
  import Llama
  import Ring

  /** The values of the ten configuration globals. */
  datatype Config = Config(
    n_vocab: nat, n_ctx: nat, n_embd: nat, n_head: nat, n_layer: nat, n_label: nat,
    window_size: nat, intermediate_size: nat, scale: nat, llm_version: string)

  /** Their initialisers. */
  const Defaults := Config(50257, 1024, 768, 12, 12, 2, 256, 11008, 12, "BERT")

  /** The nine keys that take an unsigned number. */
  const NumericKeys: set<string> :=
    {"n_vocab", "n_ctx", "n_embd", "n_head", "n_layer", "n_label", "scale", "window_size", "intermediate_size"}

  /** Every key `read_config` looks at. */
  const Keys: set<string> := NumericKeys + {"llm_version"}

  /**
   * A parsed JSON value, reduced to the kinds `read_config` tells apart:
   * strings, unsigned integers and objects; `JOther` stands for negative
   * integers, floating-point numbers, booleans, null and arrays.
   */
  datatype Json = JString(str: string) | JUnsigned(n: nat) | JObject(items: seq<(string, Json)>) | JOther

  /** What opening and parsing the config file gives. */
  datatype ConfigFile = Unopenable | Malformed | Parsed(doc: Json)

  /** A key/value pair the loop does not skip. */
  predicate Accepts(key: string, v: Json)
  {
    (key == "llm_version" && v.JString?) || (key in NumericKeys && v.JUnsigned?)
  }

  /** The value of `key` in `c`, as the JSON value that would set it. */
  function Setting(c: Config, key: string): (r: Option<Json>)
    ensures r.Some? <==> key in Keys
    ensures r.Some? ==> Accepts(key, r.value)
  {
    if key == "llm_version" then Some(JString(c.llm_version))
    else if key == "n_vocab" then Some(JUnsigned(c.n_vocab))
    else if key == "n_ctx" then Some(JUnsigned(c.n_ctx))
    else if key == "n_embd" then Some(JUnsigned(c.n_embd))
    else if key == "n_head" then Some(JUnsigned(c.n_head))
    else if key == "n_layer" then Some(JUnsigned(c.n_layer))
    else if key == "n_label" then Some(JUnsigned(c.n_label))
    else if key == "scale" then Some(JUnsigned(c.scale))
    else if key == "window_size" then Some(JUnsigned(c.window_size))
    else if key == "intermediate_size" then Some(JUnsigned(c.intermediate_size))
    else None
  }

  /** One iteration of the item loop: the string branch, then the unsigned branch. */
  function ApplyItem(c: Config, key: string, v: Json): Config
  {
    if v.JString? then
      if key == "llm_version" then c.(llm_version := v.str) else c
    else if v.JUnsigned? then
      if key == "n_vocab" then c.(n_vocab := v.n)
      else if key == "n_ctx" then c.(n_ctx := v.n)
      else if key == "n_embd" then c.(n_embd := v.n)
      else if key == "n_head" then c.(n_head := v.n)
      else if key == "n_layer" then c.(n_layer := v.n)
      else if key == "n_label" then c.(n_label := v.n)
      else if key == "scale" then c.(scale := v.n)
      else if key == "window_size" then c.(window_size := v.n)
      else if key == "intermediate_size" then c.(intermediate_size := v.n)
      else c
    else c
  }

  /** The items applied in order. */
  function Overlay(c: Config, items: seq<(string, Json)>): Config
    decreases |items|
  {
    if items == [] then c
    else
      var last := items[|items| - 1];
      ApplyItem(Overlay(c, items[..|items| - 1]), last.0, last.1)
  }

  /** `read_config`'s effect on the globals. */
  function ReadConfigSpec(c: Config, file: ConfigFile): Config
  {
    if file.Parsed? && file.doc.JObject? then Overlay(c, file.doc.items) else c
  }

  /** The last accepted value given for `key`, if any. */
  function LastAccepted(items: seq<(string, Json)>, key: string): Option<Json>
    decreases |items|
  {
    if items == [] then None
    else
      var last := items[|items| - 1];
      if last.0 == key && Accepts(last.0, last.1) then Some(last.1)
      else LastAccepted(items[..|items| - 1], key)
  }

  /** An item sets its own key when accepted and leaves every other setting alone. */
  lemma ApplyItemSetting(c: Config, key: string, v: Json, k: string)
    ensures Setting(ApplyItem(c, key, v), k) == if k == key && Accepts(key, v) then Some(v) else Setting(c, k)
  {
  }

  /** After the overlay each key holds its last accepted value, or its old one. */
  lemma {:induction false} OverlaySetting(c: Config, items: seq<(string, Json)>, k: string)
    ensures Setting(Overlay(c, items), k) == if LastAccepted(items, k).Some? then LastAccepted(items, k) else Setting(c, k)
    decreases |items|
  {
    if items != [] {
      var n := |items| - 1;
      OverlaySetting(c, items[..n], k);
      ApplyItemSetting(Overlay(c, items[..n]), items[n].0, items[n].1, k);
    }
  }

  /** A configuration is determined by its ten settings. */
  lemma SettingsDetermine(c1: Config, c2: Config)
    requires forall k :: k in Keys ==> Setting(c1, k) == Setting(c2, k)
    ensures c1 == c2
  {
    assert Setting(c1, "llm_version") == Setting(c2, "llm_version");
    assert Setting(c1, "n_vocab") == Setting(c2, "n_vocab");
    assert Setting(c1, "n_ctx") == Setting(c2, "n_ctx");
    assert Setting(c1, "n_embd") == Setting(c2, "n_embd");
    assert Setting(c1, "n_head") == Setting(c2, "n_head");
    assert Setting(c1, "n_layer") == Setting(c2, "n_layer");
    assert Setting(c1, "n_label") == Setting(c2, "n_label");
    assert Setting(c1, "scale") == Setting(c2, "scale");
    assert Setting(c1, "window_size") == Setting(c2, "window_size");
    assert Setting(c1, "intermediate_size") == Setting(c2, "intermediate_size");
  }

  /** Items with unknown keys or values of the wrong kind change nothing. */
  lemma OverlayIgnores(c: Config, items: seq<(string, Json)>)
    requires forall i :: 0 <= i < |items| ==> !Accepts(items[i].0, items[i].1)
    ensures Overlay(c, items) == c
  {
    forall k | k in Keys ensures Setting(Overlay(c, items), k) == Setting(c, k) {
      OverlaySetting(c, items, k);
      NoneAccepted(items, k);
    }
    SettingsDetermine(Overlay(c, items), c);
  }

  lemma {:induction false} NoneAccepted(items: seq<(string, Json)>, k: string)
    requires forall i :: 0 <= i < |items| ==> !Accepts(items[i].0, items[i].1)
    ensures LastAccepted(items, k) == None
    decreases |items|
  {
    if items != [] {
      NoneAccepted(items[..|items| - 1], k);
    }
  }

  /** A file that cannot be opened or holds no object leaves the globals as they were. */
  lemma ReadConfigNoObject(c: Config, file: ConfigFile)
    requires !(file.Parsed? && file.doc.JObject?)
    ensures ReadConfigSpec(c, file) == c
  {
  }

  /** The configuration globals, updated in place by `read_config`. */
  class Globals {
    var n_vocab: nat
    var n_ctx: nat
    var n_embd: nat
    var n_head: nat
    var n_layer: nat
    var n_label: nat
    var window_size: nat
    var intermediate_size: nat
    var scale: nat
    var llm_version: string

    function Current(): Config
      reads this
    {
      Config(n_vocab, n_ctx, n_embd, n_head, n_layer, n_label, window_size, intermediate_size, scale, llm_version)
    }

    /** The globals' initialisers. */
    constructor ()
      ensures Current() == Defaults
    {
      n_vocab := 50257;
      n_ctx := 1024;
      n_embd := 768;
      n_head := 12;
      n_layer := 12;
      n_label := 2;
      window_size := 256;
      intermediate_size := 11008;
      scale := 12;
      llm_version := "BERT";
    }

    /**
     * `read_config`: nothing changes when the file cannot be opened or its
     * JSON is not an object; a parse error propagates as an exception;
     * otherwise each item is applied in order.
     */
    method ReadConfig(file: ConfigFile) returns (parseError: bool)
      modifies this
      ensures parseError <==> file.Malformed?
      ensures Current() == ReadConfigSpec(old(Current()), file)
    {
      if file.Unopenable? {
        return false;
      }
      if file.Malformed? {
        return true;
      }
      parseError := false;
      if file.doc.JObject? {
        var items := file.doc.items;
        ghost var c0 := Current();
        var i := 0;
        while i < |items|
          invariant 0 <= i <= |items|
          invariant Current() == Overlay(c0, items[..i])
        {
          var key, value := items[i].0, items[i].1;
          if value.JString? {
            if key == "llm_version" {
              llm_version := value.str;
            }
          } else if value.JUnsigned? {
            if key == "n_vocab" {
              n_vocab := value.n;
            } else if key == "n_ctx" {
              n_ctx := value.n;
            } else if key == "n_embd" {
              n_embd := value.n;
            } else if key == "n_head" {
              n_head := value.n;
            } else if key == "n_layer" {
              n_layer := value.n;
            } else if key == "n_label" {
              n_label := value.n;
            } else if key == "scale" {
              scale := value.n;
            } else if key == "window_size" {
              window_size := value.n;
            } else if key == "intermediate_size" {
              intermediate_size := value.n;
            }
          }
          assert items[..i + 1][..i] == items[..i];
          i := i + 1;
        }
        assert items[..|items|] == items;
      }
    }
  }

  /** The model class each factory entry constructs. */
  datatype Kind =
    | BERTKind | BERTSequenceClassificationKind
    | GPT2Kind | GPT2SequenceClassificationKind | GPT2NextWordLogitsKind
    | GPTNEOKind | GPTNEONextWordLogitsKind
    | LlamaNextWordLogitsKind

  /** The registry the `ModelFactory` constructor fills. */
  const Registry: map<string, Kind> := map[
    "BERT" := BERTKind,
    "BERTSequenceClassification" := BERTSequenceClassificationKind,
    "GPT2" := GPT2Kind,
    "GPT2SequenceClassification" := GPT2SequenceClassificationKind,
    "GPT2NextWordLogits" := GPT2NextWordLogitsKind,
    "GPTNEO" := GPTNEOKind,
    "GPTNEONextWordLogits" := GPTNEONextWordLogitsKind,
    "LLAMA7NextWordLogits" := LlamaNextWordLogitsKind]

  /** The arguments each factory closure passes to its constructor, read from the globals. */
  function Arguments(kind: Kind, c: Config): seq<nat>
  {
    match kind
    case BERTKind => [c.n_layer, c.n_head, c.n_embd]
    case BERTSequenceClassificationKind => [c.n_layer, c.n_head, c.n_embd, c.n_label]
    case GPT2Kind => [c.n_layer, c.n_head, c.n_embd]
    case GPT2SequenceClassificationKind => [c.n_layer, c.n_head, c.n_embd, c.n_label]
    case GPT2NextWordLogitsKind => [c.n_layer, c.n_head, c.n_embd, c.n_vocab]
    case GPTNEOKind => [c.n_layer, c.n_head, c.n_embd, c.window_size]
    case GPTNEONextWordLogitsKind => [c.n_layer, c.n_head, c.n_embd, c.n_vocab, c.window_size]
    case LlamaNextWordLogitsKind => [c.n_layer, c.n_head, c.n_embd, c.n_vocab, c.intermediate_size]
  }

  /** A constructed model. */
  datatype Model =
    | BertModel(bert: Bert.BERT)
    | BertClassifier(bertCls: Bert.BERTSequenceClassification)
    | Gpt2Model(gpt2: Gpt2.GPT2)
    | Gpt2Classifier(gpt2Cls: Gpt2.GPT2SequenceClassification)
    | Gpt2Logits(gpt2Next: Gpt2.GPT2NextWordLogits)
    | NeoModel(neo: GptNeo.GPTNEO)
    | NeoLogits(neoNext: GptNeo.GPTNEONextWordLogits)
    | LlamaLogits(llamaNext: Llama.LlamaNextWordLogits)

  function KindOf(m: Model): Kind
  {
    match m
    case BertModel(_) => BERTKind
    case BertClassifier(_) => BERTSequenceClassificationKind
    case Gpt2Model(_) => GPT2Kind
    case Gpt2Classifier(_) => GPT2SequenceClassificationKind
    case Gpt2Logits(_) => GPT2NextWordLogitsKind
    case NeoModel(_) => GPTNEOKind
    case NeoLogits(_) => GPTNEONextWordLogitsKind
    case LlamaLogits(_) => LlamaNextWordLogitsKind
  }

  /** The constructor arguments a model was built with, read back from its members. */
  function ArgumentsOf(m: Model): seq<nat>
  {
    match m
    case BertModel(b) => [b.n_layer, b.n_heads, b.n_embd]
    case BertClassifier(h) => [h.gpt2.n_layer, h.gpt2.n_heads, h.gpt2.n_embd, h.fc.outDim]
    case Gpt2Model(g) => [g.n_layer, g.n_heads, g.n_embd]
    case Gpt2Classifier(h) => [h.gpt2.n_layer, h.gpt2.n_heads, h.gpt2.n_embd, h.fc.outDim]
    case Gpt2Logits(h) => [h.gpt2.n_layer, h.gpt2.n_heads, h.gpt2.n_embd, h.fc.outDim]
    case NeoModel(g) => [g.n_layer, g.n_heads, g.n_embd, g.windowSize]
    case NeoLogits(h) => [h.gptNEO.n_layer, h.gptNEO.n_heads, h.gptNEO.n_embd, h.fc.outDim, h.gptNEO.windowSize]
    case LlamaLogits(h) =>
      [h.llama_model.n_layer, h.llama_model.n_heads, h.llama_model.n_embd, h.fc.outDim, h.llama_model.intermediate]
  }

  /** The model's layers are the ones its constructor sets up. */
  predicate WellFormed(m: Model)
  {
    match m
    case BertModel(b) => b.Valid()
    case BertClassifier(h) => h.gpt2.Valid()
    case Gpt2Model(g) => g.Valid()
    case Gpt2Classifier(h) => h.gpt2.Valid()
    case Gpt2Logits(h) => h.gpt2.Valid()
    case NeoModel(g) => g.Valid()
    case NeoLogits(h) => h.gptNEO.Valid()
    case LlamaLogits(h) => h.llama_model.Valid()
  }

  /**
   * What `create` yields: `nullptr` for an unregistered name, a run
   * stopped by the attention constructor's `always_assert`, or a model.
   */
  datatype Created = NullModel | Aborted | Built(model: Model)

  /** A model with at least one layer builds an attention, whose constructor checks the head count. */
  predicate AttentionAborts(c: Config)
  {
    c.n_layer > 0 && !HeadsDivide(c.n_embd, c.n_head)
  }

  class ModelFactory {
    var factories: map<string, Kind>

    /** Registers the eight closures. */
    constructor ()
      ensures factories == Registry
    {
      factories := map[];
      new;
      factories := factories["BERT" := BERTKind];
      factories := factories["BERTSequenceClassification" := BERTSequenceClassificationKind];
      factories := factories["GPT2" := GPT2Kind];
      factories := factories["GPT2SequenceClassification" := GPT2SequenceClassificationKind];
      factories := factories["GPT2NextWordLogits" := GPT2NextWordLogitsKind];
      factories := factories["GPTNEO" := GPTNEOKind];
      factories := factories["GPTNEONextWordLogits" := GPTNEONextWordLogitsKind];
      factories := factories["LLAMA7NextWordLogits" := LlamaNextWordLogitsKind];
    }

    /**
     * `create(name)`: the closures capture nothing, so the model is built
     * from `current`, the globals at the time of the call.
     */
    method Create(name: string, current: Config) returns (r: Created)
      requires factories == Registry
      ensures r.NullModel? <==> name !in Registry
      ensures r.Aborted? <==> name in Registry && AttentionAborts(current)
      ensures r.Built? ==> KindOf(r.model) == Registry[name]
      ensures r.Built? ==> ArgumentsOf(r.model) == Arguments(Registry[name], current)
      ensures r.Built? ==> WellFormed(r.model)
    {
      if name !in factories {
        return NullModel;
      }
      if AttentionAborts(current) {
        return Aborted;
      }
      var c := current;
      match factories[name]
      case BERTKind =>
        var m := new Bert.BERT([], c.n_layer, c.n_head, c.n_embd);
        r := Built(BertModel(m));
      case BERTSequenceClassificationKind =>
        var m := new Bert.BERTSequenceClassification([], c.n_layer, c.n_head, c.n_embd, c.n_label);
        r := Built(BertClassifier(m));
      case GPT2Kind =>
        var m := new Gpt2.GPT2([], c.n_layer, c.n_head, c.n_embd);
        r := Built(Gpt2Model(m));
      case GPT2SequenceClassificationKind =>
        var m := new Gpt2.GPT2SequenceClassification([], c.n_layer, c.n_head, c.n_embd, c.n_label);
        r := Built(Gpt2Classifier(m));
      case GPT2NextWordLogitsKind =>
        var m := new Gpt2.GPT2NextWordLogits([], c.n_layer, c.n_head, c.n_embd, c.n_vocab);
        r := Built(Gpt2Logits(m));
      case GPTNEOKind =>
        var m := new GptNeo.GPTNEO([], c.n_layer, c.n_head, c.n_embd, c.window_size);
        r := Built(NeoModel(m));
      case GPTNEONextWordLogitsKind =>
        var m := new GptNeo.GPTNEONextWordLogits([], c.n_layer, c.n_head, c.n_embd, c.n_vocab, c.window_size);
        r := Built(NeoLogits(m));
      case LlamaNextWordLogitsKind =>
        var m := new Llama.LlamaNextWordLogits([], c.n_layer, c.n_head, c.n_embd, c.n_vocab, c.intermediate_size);
        r := Built(LlamaLogits(m));
    }
  }

  /** The registry holds exactly the eight model names. */
  lemma RegistryNames()
    ensures Registry.Keys == {"BERT", "BERTSequenceClassification", "GPT2", "GPT2SequenceClassification",
                              "GPT2NextWordLogits", "GPTNEO", "GPTNEONextWordLogits", "LLAMA7NextWordLogits"}
  {
  }

  /** Every entry builds a different class. */
  lemma RegistryInjective(n1: string, n2: string)
    requires n1 in Registry && n2 in Registry && Registry[n1] == Registry[n2]
    ensures n1 == n2
  {
  }

  /**
   * `get_n_seq`: the file holds n_seq rows of n_embd four-byte values.
   * The `assert` stops the run unless 4*n_embd divides the byte count (a
   * zero n_embd divides by zero).
   */
  function GetNSeq(n_elements: nat, n_embd: nat): (r: Option<nat>)
    ensures r.Some? <==> n_embd > 0 && n_elements % (4 * n_embd) == 0
    ensures r.Some? ==> r.value * (4 * n_embd) == n_elements
  {
    if n_embd == 0 || n_elements % (4 * n_embd) != 0 then None
    else Some(n_elements / (4 * n_embd))
  }

  /** A file of n_seq rows of n_embd four-byte values gives back n_seq. */
  lemma GetNSeqRoundTrip(n_seq: nat, n_embd: nat)
    requires n_embd > 0
    ensures GetNSeq(n_seq * (4 * n_embd), n_embd) == Some(n_seq)
  {
    Ring.DivModUnique(n_seq * (4 * n_embd), 4 * n_embd, n_seq, 0);
  }
}
