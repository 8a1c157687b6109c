/**
 * GPT-2: pre-norm transformer blocks over the fused-projection causal
 * attention, a final LayerNorm, and two task heads reading the logits
 * of the last position.
 */
module Gpt2 {
  import opened Wrappers
  import opened Graph
  import opened LLMBase

  /** `TransformerBlockGPT2(n_heads, n_embd)`. */
  datatype Block = Block(id: Path, n_heads: nat, n_embd: nat)
  {
    function Attn(): Attention { Attention(GPT2, id + [Field("attn")], n_heads, n_embd) }

    function Ffn(): FFN { FFN(id + [Field("ffn")], n_embd, 4 * n_embd) }

    function Ln0(): NormLayer { LayerNorm(id + [Field("ln0")], n_embd) }

    function Ln1(): NormLayer { LayerNorm(id + [Field("ln1")], n_embd) }

    /** `_forward`: attention on ln0(x) added to x, then the FFN on ln1 of that, added back. */
    function Apply(x: Term): Term
    {
      var attnOutAdd := Binary(Add, Attn().Apply(Norm(Ln0(), x)), x);
      Binary(Add, Ffn().Apply(Norm(Ln1(), attnOutAdd)), attnOutAdd)
    }
  }

  function ApplyBlock(b: Block, x: Term): Term { b.Apply(x) }

  /**
   * The block is pre-norm: its input reaches the output through the two
   * residual additions untouched, and the attention and the FFN (of
   * hidden width 4 * n_embd) read normalised copies.
   */
  lemma BlockPreNorm(b: Block, x: Term)
    ensures OnResidualPath(x, b.Apply(x))
    ensures b.Apply(x).b.a == b.Attn().Apply(Norm(b.Ln0(), x))
    ensures b.Apply(x).a == b.Ffn().Apply(Norm(b.Ln1(), b.Apply(x).b))
    ensures b.Ffn().inDim == b.n_embd && b.Ffn().hidden == 4 * b.n_embd
  {
    assert OnResidualPath(x, b.Apply(x).b);
  }

  /** A block keeps an [r, n_embd] shape exactly when the head count divides n_embd. */
  lemma BlockShape(b: Block, x: Term, s: Shape, r: nat)
    requires ShapeOf(x, s) == Some(Mat(r, b.n_embd))
    ensures HeadsDivide(b.n_embd, b.n_heads) ==> ShapeOf(b.Apply(x), s) == Some(Mat(r, b.n_embd))
    ensures !HeadsDivide(b.n_embd, b.n_heads) ==> ShapeOf(b.Apply(x), s) == None
  {
    var ln0x := Norm(b.Ln0(), x);
    assert ShapeOf(ln0x, s) == Some(Mat(r, b.n_embd));
    AttentionShape(b.Attn(), ln0x, s, r);
    var y := Binary(Add, b.Attn().Apply(ln0x), x);
    if HeadsDivide(b.n_embd, b.n_heads) {
      assert ShapeOf(y, s) == Some(Mat(r, b.n_embd));
      assert ShapeOf(Norm(b.Ln1(), y), s) == Some(Mat(r, b.n_embd));
      FFNPreservesWidth(b.Ffn(), Norm(b.Ln1(), y), s, r);
    } else {
      assert ShapeOf(y, s) == None;
    }
  }

  /** An ill-shaped input gives an ill-shaped output. */
  lemma BlockUndefined(b: Block, x: Term, s: Shape)
    requires ShapeOf(x, s) == None
    ensures ShapeOf(b.Apply(x), s) == None
  {
    assert ShapeOf(Binary(Add, b.Attn().Apply(Norm(b.Ln0(), x)), x), s) == None;
  }

  /** A block adds a causal attention and no plain softmax to its input. */
  lemma BlockMasking(b: Block, x: Term)
    requires b.n_heads > 0
    ensures Contains(b.Apply(x), IsMasked)
    ensures !Contains(x, IsPlainSoftmax) ==> !Contains(b.Apply(x), IsPlainSoftmax)
  {
    var ln0x := Norm(b.Ln0(), x);
    AttentionPrimitives(b.Attn(), ln0x);
    var y := Binary(Add, b.Attn().Apply(ln0x), x);
    assert Contains(y, IsMasked);
    if !Contains(x, IsPlainSoftmax) {
      AttentionAvoids(b.Attn(), ln0x, IsPlainSoftmax);
      assert !Contains(y, IsPlainSoftmax);
      var ln1y := Norm(b.Ln1(), y);
      assert !Contains(Linear(b.Ffn().Up(), ln1y), IsPlainSoftmax);
      assert !Contains(Unary(Gelu, Linear(b.Ffn().Up(), ln1y)), IsPlainSoftmax);
    }
  }

  predicate IsBlockAt(id: Path, n_heads: nat, n_embd: nat, blocks: seq<Block>)
  {
    forall i :: 0 <= i < |blocks| ==> blocks[i] == Block(id + [Field("blocks"), Index(i)], n_heads, n_embd)
  }

  /** `GPT2(n_layer, n_heads, n_embd)`. */
  class GPT2 {
    const id: Path
    const n_layer: nat
    const n_heads: nat
    const n_embd: nat
    const blocks: seq<Block>
    const ln_f: NormLayer

    /** What the constructor establishes. */
    predicate Valid()
    {
      |blocks| == n_layer && IsBlockAt(id, n_heads, n_embd, blocks) &&
      ln_f == LayerNorm(id + [Field("ln_f")], n_embd)
    }

    /** The constructor pushes n_layer blocks, in index order, then makes ln_f. */
    constructor (id: Path, n_layer: nat, n_heads: nat, n_embd: nat)
      ensures this.id == id && this.n_layer == n_layer && this.n_heads == n_heads && this.n_embd == n_embd
      ensures Valid()
    {
      var bs: seq<Block> := [];
      var i := 0;
      while i < n_layer
        invariant 0 <= i <= n_layer
        invariant |bs| == i && IsBlockAt(id, n_heads, n_embd, bs)
      {
        bs := bs + [Block(id + [Field("blocks"), Index(i)], n_heads, n_embd)];
        i := i + 1;
      }
      this.id := id;
      this.n_layer := n_layer;
      this.n_heads := n_heads;
      this.n_embd := n_embd;
      blocks := bs;
      ln_f := LayerNorm(id + [Field("ln_f")], n_embd);
    }

    /** The output of the blocks, applied in index order. */
    function Stack(input: Term): Term
    {
      ApplyAll(ApplyBlock, blocks, input)
    }

    function Apply(input: Term): Term
    {
      Norm(ln_f, Stack(input))
    }

    /** `_forward`: the loop reassigning x to each block's output, then ln_f. */
    method Forward(input: Term) returns (r: Term)
      requires Valid()
      ensures r == Apply(input)
    {
      var x := input;
      var i := 0;
      while i < n_layer
        invariant 0 <= i <= n_layer
        invariant x == ApplyAll(ApplyBlock, blocks[..i], input)
      {
        assert blocks[..i + 1][..i] == blocks[..i];
        x := blocks[i].Apply(x);
        i := i + 1;
      }
      assert blocks[..n_layer] == blocks;
      r := Norm(ln_f, x);
    }
  }

  /** With no layers the model is ln_f of its input. */
  lemma NoLayers(m: GPT2, input: Term)
    requires m.Valid() && m.n_layer == 0
    ensures m.Apply(input) == Norm(LayerNorm(m.id + [Field("ln_f")], m.n_embd), input)
  {
  }

  /**
   * Block k reads what blocks 0..k-1 produced, and the remaining blocks
   * read what block k produced.
   */
  lemma BlockOrder(m: GPT2, input: Term, k: nat)
    requires m.Valid() && k < m.n_layer
    ensures m.Stack(input) == ApplyAll(ApplyBlock, m.blocks[k + 1..],
              m.blocks[k].Apply(ApplyAll(ApplyBlock, m.blocks[..k], input)))
  {
    ApplyAllSplit(ApplyBlock, m.blocks, k + 1, input);
    assert m.blocks[..k + 1][..k] == m.blocks[..k];
  }

  /** The whole model keeps the residual stream from its input to ln_f. */
  lemma ModelPreNorm(m: GPT2, input: Term)
    ensures m.Apply(input).Norm? && m.Apply(input).norm == m.ln_f
    ensures OnResidualPath(input, m.Apply(input).x)
  {
    var p := t => OnResidualPath(input, t);
    forall j, t | 0 <= j < |m.blocks| && p(t) ensures p(ApplyBlock(m.blocks[j], t)) {
      ResidualExtends(m.blocks[j], input, t);
    }
    ApplyAllInvariant(ApplyBlock, m.blocks, input, p);
  }

  lemma ResidualExtends(b: Block, x: Term, t: Term)
    requires OnResidualPath(x, t)
    ensures OnResidualPath(x, b.Apply(t))
  {
    assert OnResidualPath(x, b.Apply(t).b);
  }

  /**
   * GPT2 maps an [r, n_embd] input to an [r, n_embd] output when
   * n_heads divides n_embd; with at least one layer and any other head
   * count the result is ill-shaped.
   */
  lemma ModelShape(m: GPT2, input: Term, s: Shape, r: nat)
    requires m.Valid()
    requires ShapeOf(input, s) == Some(Mat(r, m.n_embd))
    ensures HeadsDivide(m.n_embd, m.n_heads) ==> ShapeOf(m.Apply(input), s) == Some(Mat(r, m.n_embd))
    ensures !HeadsDivide(m.n_embd, m.n_heads) && m.n_layer > 0 ==> ShapeOf(m.Apply(input), s) == None
  {
    if HeadsDivide(m.n_embd, m.n_heads) {
      StackShape(m, input, s, r);
    } else if m.n_layer > 0 {
      StackUndefined(m, input, s, r);
    }
  }

  lemma StackShape(m: GPT2, input: Term, s: Shape, r: nat)
    requires m.Valid() && HeadsDivide(m.n_embd, m.n_heads)
    requires ShapeOf(input, s) == Some(Mat(r, m.n_embd))
    ensures ShapeOf(m.Stack(input), s) == Some(Mat(r, m.n_embd))
  {
    var p := t => ShapeOf(t, s) == Some(Mat(r, m.n_embd));
    forall j, t | 0 <= j < |m.blocks| && p(t) ensures p(ApplyBlock(m.blocks[j], t)) {
      BlockShape(m.blocks[j], t, s, r);
    }
    ApplyAllInvariant(ApplyBlock, m.blocks, input, p);
  }

  lemma StackUndefined(m: GPT2, input: Term, s: Shape, r: nat)
    requires m.Valid() && !HeadsDivide(m.n_embd, m.n_heads) && m.n_layer > 0
    requires ShapeOf(input, s) == Some(Mat(r, m.n_embd))
    ensures ShapeOf(m.Stack(input), s) == None
  {
    var p := t => ShapeOf(t, s) == None;
    var first := m.blocks[0].Apply(input);
    BlockShape(m.blocks[0], input, s, r);
    var rest := m.blocks[1..];
    forall j, t | 0 <= j < |rest| && p(t) ensures p(ApplyBlock(rest[j], t)) {
      BlockUndefined(rest[j], t, s);
    }
    ApplyAllInvariant(ApplyBlock, rest, first, p);
    ApplyAllSplit(ApplyBlock, m.blocks, 1, input);
    assert ApplyAll(ApplyBlock, m.blocks[..1], input) == first by {
      assert m.blocks[..1][..0] == [];
    }
  }

  /** Every GPT2 attention is causal: the model has masked primitives and no plain softmax. */
  lemma ModelMasking(m: GPT2, input: Term)
    requires m.Valid() && m.n_layer > 0 && m.n_heads > 0
    requires !Contains(input, IsPlainSoftmax)
    ensures Contains(m.Apply(input), IsMasked)
    ensures !Contains(m.Apply(input), IsPlainSoftmax)
  {
    var p := t => !Contains(t, IsPlainSoftmax);
    forall j, t | 0 <= j < |m.blocks| && p(t) ensures p(ApplyBlock(m.blocks[j], t)) {
      BlockMasking(m.blocks[j], t);
    }
    ApplyAllInvariant(ApplyBlock, m.blocks, input, p);
    var n := |m.blocks| - 1;
    BlockMasking(m.blocks[n], ApplyAll(ApplyBlock, m.blocks[..n], input));
  }

  /** `GPT2SequenceClassification(n_layer, n_heads, n_embd, n_labels)`. */
  class GPT2SequenceClassification {
    const gpt2: GPT2
    const fc: FC

    constructor (id: Path, n_layer: nat, n_heads: nat, n_embd: nat, n_labels: nat)
      ensures gpt2.id == id + [Field("gpt2")] && gpt2.n_layer == n_layer && gpt2.n_heads == n_heads && gpt2.n_embd == n_embd
      ensures gpt2.Valid()
      ensures fc == FC(id + [Field("fc")], n_embd, n_labels, false)
    {
      gpt2 := new GPT2(id + [Field("gpt2")], n_layer, n_heads, n_embd);
      fc := FC(id + [Field("fc")], n_embd, n_labels, false);
    }

    function Apply(input: Term): Term
    {
      View(Linear(fc, gpt2.Apply(input)), -1)
    }

    /** `_forward`: the last row of fc(gpt2(x)). */
    method Forward(input: Term) returns (r: Term)
      requires gpt2.Valid()
      ensures r == Apply(input)
    {
      var fcIn := gpt2.Forward(input);
      r := View(Linear(fc, fcIn), -1);
    }
  }

  /** `GPT2NextWordLogits(n_layer, n_heads, n_embd, n_vocab)`. */
  class GPT2NextWordLogits {
    const gpt2: GPT2
    const fc: FC

    constructor (id: Path, n_layer: nat, n_heads: nat, n_embd: nat, n_vocab: nat)
      ensures gpt2.id == id + [Field("gpt2")] && gpt2.n_layer == n_layer && gpt2.n_heads == n_heads && gpt2.n_embd == n_embd
      ensures gpt2.Valid()
      ensures fc == FC(id + [Field("fc")], n_embd, n_vocab, false)
    {
      gpt2 := new GPT2(id + [Field("gpt2")], n_layer, n_heads, n_embd);
      fc := FC(id + [Field("fc")], n_embd, n_vocab, false);
    }

    function Apply(input: Term): Term
    {
      View(Linear(fc, gpt2.Apply(input)), -1)
    }

    /** `_forward`: the last row of fc(gpt2(x)). */
    method Forward(input: Term) returns (r: Term)
      requires gpt2.Valid()
      ensures r == Apply(input)
    {
      var fcIn := gpt2.Forward(input);
      r := View(Linear(fc, fcIn), -1);
    }
  }

  /**
   * A task head turns r >= 1 positions into one row of fc.outDim logits:
   * the row of the last position.
   */
  lemma LogitsShape(m: GPT2, fc: FC, input: Term, s: Shape, r: nat)
    requires m.Valid() && HeadsDivide(m.n_embd, m.n_heads) && fc.inDim == m.n_embd
    requires ShapeOf(input, s) == Some(Mat(r, m.n_embd)) && r > 0
    ensures ShapeOf(View(Linear(fc, m.Apply(input)), -1), s) == Some(Vec(fc.outDim))
  {
    ModelShape(m, input, s, r);
  }
}
