/**
 * The LLaMA-7B example program's own copies of the LLaMA classes: `FFN`,
 * `MultiHeadAttention`, `TransformerBlock`, `LLAMA_MODEL` and
 * `LlamaNextWordLogits`. Each builds its term in its own words, and a
 * lemma shows it is the term the library's class of the same role builds.
 */
module Llama7b {
  import opened Wrappers
  import opened Graph
  import LLMBase
  import Llama

  /** `FFN(in, intermediate_size)`: `down(mul(silu(up1 x), up2 x))`, no biases. */
  datatype FFN = FFN(id: Path, inDim: nat, intermediate: nat)
  {
    function Up1(): FC { FC(id + [Field("up1")], inDim, intermediate, false) }

    function Up2(): FC { FC(id + [Field("up2")], inDim, intermediate, false) }

    function Down(): FC { FC(id + [Field("down")], intermediate, inDim, false) }

    function Apply(input: Term): Term
    {
      var a := Linear(Up1(), input);
      var b := Linear(Up2(), input);
      Linear(Down(), Binary(Mul, Unary(Silu, a), b))
    }
  }

  lemma FFNSame(f: FFN, input: Term)
    ensures f.Apply(input) == LLMBase.FFNLlama(f.id, f.inDim, f.intermediate).Apply(input)
  {
  }

  /** `MultiHeadAttention(n_heads, n_embd)`: separate bias-free q/k/v, rotary, causal. */
  datatype MultiHeadAttention = MultiHeadAttention(id: Path, n_heads: nat, n_embd: nat)
  {
    /** The constructor's `always_assert`. */
    predicate Valid() { LLMBase.HeadsDivide(n_embd, n_heads) }

    function QAttn(): FC { FC(id + [Field("q_attn")], n_embd, n_embd, false) }

    function KAttn(): FC { FC(id + [Field("k_attn")], n_embd, n_embd, false) }

    function VAttn(): FC { FC(id + [Field("v_attn")], n_embd, n_embd, false) }

    function CProj(): FC { FC(id + [Field("c_proj")], n_embd, n_embd, false) }

    /** The body of the head loop for head i. */
    function Head(input: Term, i: nat): Term
    {
      var qs := Split(Linear(QAttn(), input), n_heads);
      var ks := Split(Linear(KAttn(), input), n_heads);
      var vs := Split(Linear(VAttn(), input), n_heads);
      var qBefore, kBefore, v := View(qs, i), View(ks, i), View(vs, i);
      var rot := Unary(RotaryBeforeSinCos, v);
      var sinEmb, cosEmb := Unary(Sin, rot), Unary(Cos, rot);
      var q := Binary(Add, Binary(Mul, qBefore, cosEmb), Binary(Mul, Unary(RotateHalf, qBefore), sinEmb));
      var k := Binary(Add, Binary(Mul, kBefore, cosEmb), Binary(Mul, Unary(RotateHalf, kBefore), sinEmb));
      var qk := Binary(MatMulTriangular, q, Unary(Transpose, k));
      var qks := ScalarMul(qk, InvSqrtHeadDim(n_embd, n_heads));
      Binary(MatMul, Unary(SoftmaxTriangular, qks), v)
    }

    function Heads(input: Term): seq<Term>
    {
      seq(n_heads, i requires 0 <= i < n_heads => Head(input, i))
    }

    function Apply(input: Term): Term
    {
      Linear(CProj(), Concat(Heads(input)))
    }

    /** `_forward`: the head loop pushing into `qks_sm_vs`, then concat and c_proj. */
    method Forward(input: Term) returns (r: Term)
      ensures r == Apply(input)
    {
      var qksSmVs: seq<Term> := [];
      var i := 0;
      while i < n_heads
        invariant 0 <= i <= n_heads
        invariant qksSmVs == Heads(input)[..i]
      {
        qksSmVs := qksSmVs + [Head(input, i)];
        i := i + 1;
      }
      assert qksSmVs == Heads(input);
      r := Linear(CProj(), Concat(qksSmVs));
    }
  }

  /** This is the library's LLAMA attention, head by head. */
  lemma AttentionSame(a: MultiHeadAttention, input: Term)
    ensures a.Valid() == LLMBase.Attention(LLMBase.LLAMA, a.id, a.n_heads, a.n_embd).Valid()
    ensures a.Apply(input) == LLMBase.Attention(LLMBase.LLAMA, a.id, a.n_heads, a.n_embd).Apply(input)
  {
    var lib := LLMBase.Attention(LLMBase.LLAMA, a.id, a.n_heads, a.n_embd);
    forall i | 0 <= i < a.n_heads ensures a.Heads(input)[i] == lib.Heads(input)[i] {
      assert a.Head(input, i) == lib.Head(input, i);
    }
    assert a.Heads(input) == lib.Heads(input);
  }

  /** `TransformerBlock(n_heads, n_embd, intermediate_size)`. */
  datatype TransformerBlock = TransformerBlock(id: Path, n_heads: nat, n_embd: nat, intermediate: nat)
  {
    function Attn(): MultiHeadAttention { MultiHeadAttention(id + [Field("attn")], n_heads, n_embd) }

    function Ffn(): FFN { FFN(id + [Field("ffn")], n_embd, intermediate) }

    function Ln0(): NormLayer { RMSNorm(id + [Field("ln0")], n_embd, Some(false)) }

    function Ln1(): NormLayer { RMSNorm(id + [Field("ln1")], n_embd, Some(false)) }

    function Apply(input: Term): Term
    {
      var ln0Out := Norm(Ln0(), input);
      var attnOutAdd := Binary(Add, Attn().Apply(ln0Out), input);
      var ln1Out := Norm(Ln1(), attnOutAdd);
      Binary(Add, Ffn().Apply(ln1Out), attnOutAdd)
    }
  }

  function ApplyBlock(b: TransformerBlock, x: Term): Term { b.Apply(x) }

  lemma BlockSame(b: TransformerBlock, input: Term)
    ensures b.Apply(input) == Llama.Block(b.id, b.n_heads, b.n_embd, b.intermediate).Apply(input)
  {
    var lib := Llama.Block(b.id, b.n_heads, b.n_embd, b.intermediate);
    var ln0Out := Norm(b.Ln0(), input);
    AttentionSame(b.Attn(), ln0Out);
    var attnOutAdd := Binary(Add, b.Attn().Apply(ln0Out), input);
    FFNSame(b.Ffn(), Norm(b.Ln1(), attnOutAdd));
  }

  predicate IsBlockAt(id: Path, n_heads: nat, n_embd: nat, intermediate: nat, blocks: seq<TransformerBlock>)
  {
    forall i :: 0 <= i < |blocks| ==>
      blocks[i] == TransformerBlock(id + [Field("blocks"), Index(i)], n_heads, n_embd, intermediate)
  }

  /** `LLAMA_MODEL(n_layer, n_heads, n_embd, intermediate_size)`. */
  class LLAMA_MODEL {
    const id: Path
    const n_layer: nat
    const n_heads: nat
    const n_embd: nat
    const intermediate: nat
    const blocks: seq<TransformerBlock>
    const ln_f: NormLayer

    predicate Valid()
    {
      |blocks| == n_layer && IsBlockAt(id, n_heads, n_embd, intermediate, blocks) &&
      ln_f == RMSNorm(id + [Field("ln_f")], n_embd, None)
    }

    constructor (id: Path, n_layer: nat, n_heads: nat, n_embd: nat, intermediate_size: nat)
      ensures this.id == id && this.n_layer == n_layer && this.n_heads == n_heads && this.n_embd == n_embd
      ensures intermediate == intermediate_size
      ensures Valid()
    {
      var bs: seq<TransformerBlock> := [];
      var i := 0;
      while i < n_layer
        invariant 0 <= i <= n_layer
        invariant |bs| == i && IsBlockAt(id, n_heads, n_embd, intermediate_size, bs)
      {
        bs := bs + [TransformerBlock(id + [Field("blocks"), Index(i)], n_heads, n_embd, intermediate_size)];
        i := i + 1;
      }
      this.id := id;
      this.n_layer := n_layer;
      this.n_heads := n_heads;
      this.n_embd := n_embd;
      intermediate := intermediate_size;
      blocks := bs;
      ln_f := RMSNorm(id + [Field("ln_f")], n_embd, None);
    }

    function Apply(input: Term): Term
    {
      Norm(ln_f, ApplyAll(ApplyBlock, blocks, input))
    }

    /** `_forward`: the block loop reassigning `x`, then ln_f. */
    method Forward(input: Term) returns (r: Term)
      requires Valid()
      ensures r == Apply(input)
    {
      var x := input;
      var i := 0;
      while i < n_layer
        invariant 0 <= i <= n_layer
        invariant x == ApplyAll(ApplyBlock, blocks[..i], input)
      {
        assert blocks[..i + 1][..i] == blocks[..i];
        x := blocks[i].Apply(x);
        i := i + 1;
      }
      assert blocks[..n_layer] == blocks;
      r := Norm(ln_f, x);
    }
  }

  /** Built with the same arguments, this model and the library's build the same term. */
  lemma ModelSame(m: LLAMA_MODEL, lib: Llama.LLAMA_MODEL, input: Term)
    requires m.Valid() && lib.Valid()
    requires m.id == lib.id && m.n_layer == lib.n_layer && m.n_heads == lib.n_heads
    requires m.n_embd == lib.n_embd && m.intermediate == lib.intermediate
    ensures m.Apply(input) == lib.Apply(input)
  {
    forall j, t | 0 <= j < |m.blocks| ensures ApplyBlock(m.blocks[j], t) == Llama.ApplyBlock(lib.blocks[j], t) {
      BlockSame(m.blocks[j], t);
    }
    ApplyAllCongruent(ApplyBlock, m.blocks, Llama.ApplyBlock, lib.blocks, input);
  }

  /** `LlamaNextWordLogits(n_layer, n_heads, n_embd, n_vocab, intermediate_size)`. */
  class LlamaNextWordLogits {
    const llama_model: LLAMA_MODEL
    const fc: FC

    constructor (id: Path, n_layer: nat, n_heads: nat, n_embd: nat, n_vocab: nat, intermediate_size: nat)
      ensures llama_model.id == id + [Field("llama_model")] && llama_model.n_layer == n_layer
      ensures llama_model.n_heads == n_heads && llama_model.n_embd == n_embd
      ensures llama_model.intermediate == intermediate_size
      ensures llama_model.Valid()
      ensures fc == FC(id + [Field("fc")], n_embd, n_vocab, false)
    {
      llama_model := new LLAMA_MODEL(id + [Field("llama_model")], n_layer, n_heads, n_embd, intermediate_size);
      fc := FC(id + [Field("fc")], n_embd, n_vocab, false);
    }

    function Apply(input: Term): Term
    {
      View(Linear(fc, llama_model.Apply(input)), -1)
    }

    /** `_forward`: the last row of fc(llama_model(x)). */
    method Forward(input: Term) returns (r: Term)
      requires llama_model.Valid()
      ensures r == Apply(input)
    {
      var fcIn := llama_model.Forward(input);
      var fcOut := Linear(fc, fcIn);
      r := View(fcOut, -1);
    }
  }

  /** The example's next-word head is the library's one. */
  lemma LogitsSame(h: LlamaNextWordLogits, lib: Llama.LlamaNextWordLogits, input: Term)
    requires h.llama_model.Valid() && lib.llama_model.Valid()
    requires h.llama_model.id == lib.llama_model.id && h.llama_model.n_layer == lib.llama_model.n_layer
    requires h.llama_model.n_heads == lib.llama_model.n_heads && h.llama_model.n_embd == lib.llama_model.n_embd
    requires h.llama_model.intermediate == lib.llama_model.intermediate && h.fc == lib.fc
    ensures h.Apply(input) == lib.Apply(input)
  {
    ModelSame(h.llama_model, lib.llama_model, input);
  }
}
