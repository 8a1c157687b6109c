/**
 * LLaMA: pre-norm RMSNorm blocks over the rotary, causal, bias-free
 * attention and the gated FFN, a final RMSNorm, and the next-word head.
 */
module Llama {
  import opened Wrappers
  import opened Graph
  import opened LLMBase

  /** `TransformerBlockLLAMA(n_heads, n_embd, intermediate_size)`. */
  datatype Block = Block(id: Path, n_heads: nat, n_embd: nat, intermediate: nat)
  {
    function Attn(): Attention { Attention(LLAMA, id + [Field("attn")], n_heads, n_embd) }

    function Ffn(): FFNLlama { FFNLlama(id + [Field("ffn")], n_embd, intermediate) }

    /** `RMSNorm(n_embd, false)`. */
    function Ln0(): NormLayer { RMSNorm(id + [Field("ln0")], n_embd, Some(false)) }

    function Ln1(): NormLayer { RMSNorm(id + [Field("ln1")], n_embd, Some(false)) }

    /** `_forward`: attention on ln0(x) added to x, then the FFN on ln1 of that, added back. */
    function Apply(x: Term): Term
    {
      var attnOutAdd := Binary(Add, Attn().Apply(Norm(Ln0(), x)), x);
      Binary(Add, Ffn().Apply(Norm(Ln1(), attnOutAdd)), attnOutAdd)
    }
  }

  function ApplyBlock(b: Block, x: Term): Term { b.Apply(x) }

  /**
   * Pre-norm with RMSNorm: the input stays on the residual path and the
   * sublayers read RMS-normalised copies made with the explicit `false`
   * second argument.
   */
  lemma BlockPreNorm(b: Block, x: Term)
    ensures OnResidualPath(x, b.Apply(x))
    ensures b.Apply(x).b.a == b.Attn().Apply(Norm(b.Ln0(), x))
    ensures b.Apply(x).a == b.Ffn().Apply(Norm(b.Ln1(), b.Apply(x).b))
    ensures b.Ln0().RMSNorm? && b.Ln0().second == Some(false)
    ensures b.Ln1().RMSNorm? && b.Ln1().second == Some(false)
    ensures b.Ffn().inDim == b.n_embd && b.Ffn().intermediate == b.intermediate
  {
    assert OnResidualPath(x, b.Apply(x).b);
  }

  lemma ResidualExtends(b: Block, x: Term, t: Term)
    requires OnResidualPath(x, t)
    ensures OnResidualPath(x, b.Apply(t))
  {
    assert OnResidualPath(x, b.Apply(t).b);
  }

  lemma BlockShape(b: Block, x: Term, s: Shape, r: nat)
    requires ShapeOf(x, s) == Some(Mat(r, b.n_embd))
    ensures HeadsDivide(b.n_embd, b.n_heads) ==> ShapeOf(b.Apply(x), s) == Some(Mat(r, b.n_embd))
    ensures !HeadsDivide(b.n_embd, b.n_heads) ==> ShapeOf(b.Apply(x), s) == None
  {
    var ln0x := Norm(b.Ln0(), x);
    assert ShapeOf(ln0x, s) == Some(Mat(r, b.n_embd));
    AttentionShape(b.Attn(), ln0x, s, r);
    var y := Binary(Add, b.Attn().Apply(ln0x), x);
    if HeadsDivide(b.n_embd, b.n_heads) {
      assert ShapeOf(y, s) == Some(Mat(r, b.n_embd));
      assert ShapeOf(Norm(b.Ln1(), y), s) == Some(Mat(r, b.n_embd));
      FFNLlamaPreservesWidth(b.Ffn(), Norm(b.Ln1(), y), s, r);
    } else {
      assert ShapeOf(y, s) == None;
    }
  }

  lemma BlockUndefined(b: Block, x: Term, s: Shape)
    requires ShapeOf(x, s) == None
    ensures ShapeOf(b.Apply(x), s) == None
  {
    assert ShapeOf(Binary(Add, b.Attn().Apply(Norm(b.Ln0(), x)), x), s) == None;
  }

  /** A block adds a causal attention and no plain softmax to its input. */
  lemma BlockMasking(b: Block, x: Term)
    requires b.n_heads > 0
    ensures Contains(b.Apply(x), IsMasked)
    ensures !Contains(x, IsPlainSoftmax) ==> !Contains(b.Apply(x), IsPlainSoftmax)
  {
    var ln0x := Norm(b.Ln0(), x);
    AttentionPrimitives(b.Attn(), ln0x);
    var y := Binary(Add, b.Attn().Apply(ln0x), x);
    assert Contains(y, IsMasked);
    if !Contains(x, IsPlainSoftmax) {
      AttentionAvoids(b.Attn(), ln0x, IsPlainSoftmax);
      assert !Contains(y, IsPlainSoftmax);
      var ln1y := Norm(b.Ln1(), y);
      var f := b.Ffn();
      assert !Contains(ln1y, IsPlainSoftmax);
      assert !Contains(Linear(f.Up1(), ln1y), IsPlainSoftmax);
      assert !Contains(Linear(f.Up2(), ln1y), IsPlainSoftmax);
      assert !Contains(Unary(Silu, Linear(f.Up1(), ln1y)), IsPlainSoftmax);
      assert !Contains(Binary(Mul, Unary(Silu, Linear(f.Up1(), ln1y)), Linear(f.Up2(), ln1y)), IsPlainSoftmax);
    }
  }

  predicate IsBlockAt(id: Path, n_heads: nat, n_embd: nat, intermediate: nat, blocks: seq<Block>)
  {
    forall i :: 0 <= i < |blocks| ==>
      blocks[i] == Block(id + [Field("blocks"), Index(i)], n_heads, n_embd, intermediate)
  }

  /** `LLAMA_MODEL(n_layer, n_heads, n_embd, intermediate_size)`. */
  class LLAMA_MODEL {
    const id: Path
    const n_layer: nat
    const n_heads: nat
    const n_embd: nat
    const intermediate: nat
    const blocks: seq<Block>
    const ln_f: NormLayer

    /** `ln_f` is `RMSNorm(n_embd)`: the second argument is left at its default. */
    predicate Valid()
    {
      |blocks| == n_layer && IsBlockAt(id, n_heads, n_embd, intermediate, blocks) &&
      ln_f == RMSNorm(id + [Field("ln_f")], n_embd, None)
    }

    constructor (id: Path, n_layer: nat, n_heads: nat, n_embd: nat, intermediate_size: nat)
      ensures this.id == id && this.n_layer == n_layer && this.n_heads == n_heads && this.n_embd == n_embd
      ensures intermediate == intermediate_size
      ensures Valid()
    {
      var bs: seq<Block> := [];
      var i := 0;
      while i < n_layer
        invariant 0 <= i <= n_layer
        invariant |bs| == i && IsBlockAt(id, n_heads, n_embd, intermediate_size, bs)
      {
        bs := bs + [Block(id + [Field("blocks"), Index(i)], n_heads, n_embd, intermediate_size)];
        i := i + 1;
      }
      this.id := id;
      this.n_layer := n_layer;
      this.n_heads := n_heads;
      this.n_embd := n_embd;
      intermediate := intermediate_size;
      blocks := bs;
      ln_f := RMSNorm(id + [Field("ln_f")], n_embd, None);
    }

    function Stack(input: Term): Term
    {
      ApplyAll(ApplyBlock, blocks, input)
    }

    function Apply(input: Term): Term
    {
      Norm(ln_f, Stack(input))
    }

    /** `_forward`: the block loop, then ln_f. */
    method Forward(input: Term) returns (r: Term)
      requires Valid()
      ensures r == Apply(input)
    {
      var x := input;
      var i := 0;
      while i < n_layer
        invariant 0 <= i <= n_layer
        invariant x == ApplyAll(ApplyBlock, blocks[..i], input)
      {
        assert blocks[..i + 1][..i] == blocks[..i];
        x := blocks[i].Apply(x);
        i := i + 1;
      }
      assert blocks[..n_layer] == blocks;
      r := Norm(ln_f, x);
    }
  }

  /** Block k reads the output of blocks 0..k-1. */
  lemma BlockOrder(m: LLAMA_MODEL, input: Term, k: nat)
    requires m.Valid() && k < m.n_layer
    ensures m.Stack(input) == ApplyAll(ApplyBlock, m.blocks[k + 1..],
              m.blocks[k].Apply(ApplyAll(ApplyBlock, m.blocks[..k], input)))
  {
    ApplyAllSplit(ApplyBlock, m.blocks, k + 1, input);
    assert m.blocks[..k + 1][..k] == m.blocks[..k];
  }

  /** The residual stream runs from the input to ln_f, whose RMSNorm differs from the blocks' ones. */
  lemma ModelPreNorm(m: LLAMA_MODEL, input: Term)
    requires m.Valid()
    ensures m.Apply(input).Norm? && m.Apply(input).norm == m.ln_f && m.ln_f.second.None?
    ensures OnResidualPath(input, m.Apply(input).x)
  {
    var p := t => OnResidualPath(input, t);
    forall j, t | 0 <= j < |m.blocks| && p(t) ensures p(ApplyBlock(m.blocks[j], t)) {
      ResidualExtends(m.blocks[j], input, t);
    }
    ApplyAllInvariant(ApplyBlock, m.blocks, input, p);
  }

  lemma StackShape(m: LLAMA_MODEL, input: Term, s: Shape, r: nat)
    requires m.Valid() && HeadsDivide(m.n_embd, m.n_heads)
    requires ShapeOf(input, s) == Some(Mat(r, m.n_embd))
    ensures ShapeOf(m.Stack(input), s) == Some(Mat(r, m.n_embd))
  {
    var p := t => ShapeOf(t, s) == Some(Mat(r, m.n_embd));
    forall j, t | 0 <= j < |m.blocks| && p(t) ensures p(ApplyBlock(m.blocks[j], t)) {
      BlockShape(m.blocks[j], t, s, r);
    }
    ApplyAllInvariant(ApplyBlock, m.blocks, input, p);
  }

  lemma StackUndefined(m: LLAMA_MODEL, input: Term, s: Shape, r: nat)
    requires m.Valid() && !HeadsDivide(m.n_embd, m.n_heads) && m.n_layer > 0
    requires ShapeOf(input, s) == Some(Mat(r, m.n_embd))
    ensures ShapeOf(m.Stack(input), s) == None
  {
    var p := t => ShapeOf(t, s) == None;
    var first := m.blocks[0].Apply(input);
    BlockShape(m.blocks[0], input, s, r);
    var rest := m.blocks[1..];
    forall j, t | 0 <= j < |rest| && p(t) ensures p(ApplyBlock(rest[j], t)) {
      BlockUndefined(rest[j], t, s);
    }
    ApplyAllInvariant(ApplyBlock, rest, first, p);
    ApplyAllSplit(ApplyBlock, m.blocks, 1, input);
    assert ApplyAll(ApplyBlock, m.blocks[..1], input) == first by {
      assert m.blocks[..1][..0] == [];
    }
  }

  /** Shape preserved exactly when the head count divides n_embd (given at least one layer). */
  lemma ModelShape(m: LLAMA_MODEL, input: Term, s: Shape, r: nat)
    requires m.Valid()
    requires ShapeOf(input, s) == Some(Mat(r, m.n_embd))
    ensures HeadsDivide(m.n_embd, m.n_heads) ==> ShapeOf(m.Apply(input), s) == Some(Mat(r, m.n_embd))
    ensures !HeadsDivide(m.n_embd, m.n_heads) && m.n_layer > 0 ==> ShapeOf(m.Apply(input), s) == None
  {
    if HeadsDivide(m.n_embd, m.n_heads) {
      StackShape(m, input, s, r);
    } else if m.n_layer > 0 {
      StackUndefined(m, input, s, r);
    }
  }

  /** LLaMA attention is causal throughout. */
  lemma ModelMasking(m: LLAMA_MODEL, input: Term)
    requires m.Valid() && m.n_layer > 0 && m.n_heads > 0
    requires !Contains(input, IsPlainSoftmax)
    ensures Contains(m.Apply(input), IsMasked)
    ensures !Contains(m.Apply(input), IsPlainSoftmax)
  {
    var p := t => !Contains(t, IsPlainSoftmax);
    forall j, t | 0 <= j < |m.blocks| && p(t) ensures p(ApplyBlock(m.blocks[j], t)) {
      BlockMasking(m.blocks[j], t);
    }
    ApplyAllInvariant(ApplyBlock, m.blocks, input, p);
    var n := |m.blocks| - 1;
    BlockMasking(m.blocks[n], ApplyAll(ApplyBlock, m.blocks[..n], input));
  }

  /** `LlamaNextWordLogits(n_layer, n_heads, n_embd, n_vocab, intermediate_size)`. */
  class LlamaNextWordLogits {
    const llama_model: LLAMA_MODEL
    const fc: FC

    constructor (id: Path, n_layer: nat, n_heads: nat, n_embd: nat, n_vocab: nat, intermediate_size: nat)
      ensures llama_model.id == id + [Field("llama_model")] && llama_model.n_layer == n_layer
      ensures llama_model.n_heads == n_heads && llama_model.n_embd == n_embd
      ensures llama_model.intermediate == intermediate_size
      ensures llama_model.Valid()
      ensures fc == FC(id + [Field("fc")], n_embd, n_vocab, false)
    {
      llama_model := new LLAMA_MODEL(id + [Field("llama_model")], n_layer, n_heads, n_embd, intermediate_size);
      fc := FC(id + [Field("fc")], n_embd, n_vocab, false);
    }

    function Apply(input: Term): Term
    {
      View(Linear(fc, llama_model.Apply(input)), -1)
    }

    /** `_forward`: the last row of fc(llama_model(x)). */
    method Forward(input: Term) returns (r: Term)
      requires llama_model.Valid()
      ensures r == Apply(input)
    {
      var fcIn := llama_model.Forward(input);
      r := View(Linear(fc, fcIn), -1);
    }
  }

  /** The head yields the n_vocab logits of the last position. */
  lemma LogitsShape(h: LlamaNextWordLogits, input: Term, s: Shape, r: nat)
    requires h.llama_model.Valid() && HeadsDivide(h.llama_model.n_embd, h.llama_model.n_heads)
    requires h.fc.inDim == h.llama_model.n_embd
    requires ShapeOf(input, s) == Some(Mat(r, h.llama_model.n_embd)) && r > 0
    ensures ShapeOf(h.Apply(input), s) == Some(Vec(h.fc.outDim))
  {
    ModelShape(h.llama_model, input, s, r);
  }
}
