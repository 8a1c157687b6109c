/**
 * GPT-Neo: pre-norm LayerNorm blocks, the GPT2 block shape, over the
 * separate-projection causal attention without scaling; block i is given
 * attention type i.
 */
module GptNeo {
  import opened Wrappers
  import opened Graph
  import opened LLMBase

  /** `TransformerBlockGPTNEO(n_heads, n_embd, attention_type, window_size)`. */
  datatype Block = Block(id: Path, n_heads: nat, n_embd: nat, attentionType: nat, windowSize: nat)
  {
    function Attn(): Attention
    {
      Attention(NEO(attentionType, windowSize), id + [Field("attn")], n_heads, n_embd)
    }

    function Ffn(): FFN { FFN(id + [Field("ffn")], n_embd, 4 * n_embd) }

    function Ln0(): NormLayer { LayerNorm(id + [Field("ln0")], n_embd) }

    function Ln1(): NormLayer { LayerNorm(id + [Field("ln1")], n_embd) }

    /** `_forward`: attention on ln0(x) added to x, then the FFN on ln1 of that, added back. */
    function Apply(x: Term): Term
    {
      var attnOutAdd := Binary(Add, Attn().Apply(Norm(Ln0(), x)), x);
      Binary(Add, Ffn().Apply(Norm(Ln1(), attnOutAdd)), attnOutAdd)
    }
  }

  function ApplyBlock(b: Block, x: Term): Term { b.Apply(x) }

  /** Pre-norm, as in GPT2: the input stays on the residual path, the sublayers read normalised copies. */
  lemma BlockPreNorm(b: Block, x: Term)
    ensures OnResidualPath(x, b.Apply(x))
    ensures b.Apply(x).b.a == b.Attn().Apply(Norm(b.Ln0(), x))
    ensures b.Apply(x).a == b.Ffn().Apply(Norm(b.Ln1(), b.Apply(x).b))
    ensures b.Ln0().LayerNorm? && b.Ln1().LayerNorm?
    ensures b.Ffn().inDim == b.n_embd && b.Ffn().hidden == 4 * b.n_embd
  {
    assert OnResidualPath(x, b.Apply(x).b);
  }

  lemma ResidualExtends(b: Block, x: Term, t: Term)
    requires OnResidualPath(x, t)
    ensures OnResidualPath(x, b.Apply(t))
  {
    assert OnResidualPath(x, b.Apply(t).b);
  }

  /** The attention type and window size a block is given do not change what it computes. */
  lemma BlockIgnoresAttentionType(b: Block, x: Term)
    ensures b.Apply(x) == b.(attentionType := 0, windowSize := 0).Apply(x)
  {
    NeoIgnoresAttentionType(b.id + [Field("attn")], b.n_heads, b.n_embd, b.attentionType, b.windowSize, 0, 0,
                            Norm(b.Ln0(), x));
  }

  lemma BlockShape(b: Block, x: Term, s: Shape, r: nat)
    requires ShapeOf(x, s) == Some(Mat(r, b.n_embd))
    ensures HeadsDivide(b.n_embd, b.n_heads) ==> ShapeOf(b.Apply(x), s) == Some(Mat(r, b.n_embd))
    ensures !HeadsDivide(b.n_embd, b.n_heads) ==> ShapeOf(b.Apply(x), s) == None
  {
    var ln0x := Norm(b.Ln0(), x);
    assert ShapeOf(ln0x, s) == Some(Mat(r, b.n_embd));
    AttentionShape(b.Attn(), ln0x, s, r);
    var y := Binary(Add, b.Attn().Apply(ln0x), x);
    if HeadsDivide(b.n_embd, b.n_heads) {
      assert ShapeOf(y, s) == Some(Mat(r, b.n_embd));
      assert ShapeOf(Norm(b.Ln1(), y), s) == Some(Mat(r, b.n_embd));
      FFNPreservesWidth(b.Ffn(), Norm(b.Ln1(), y), s, r);
    } else {
      assert ShapeOf(y, s) == None;
    }
  }

  lemma BlockUndefined(b: Block, x: Term, s: Shape)
    requires ShapeOf(x, s) == None
    ensures ShapeOf(b.Apply(x), s) == None
  {
    assert ShapeOf(Binary(Add, b.Attn().Apply(Norm(b.Ln0(), x)), x), s) == None;
  }

  /** p singles out plain softmax or scaling nodes, neither of which a NEO attention has. */
  ghost predicate NotInNeo(p: Term -> bool)
  {
    forall t :: p(t) ==> IsPlainSoftmax(t) || IsScaled(t)
  }

  /** A block adds a causal attention, and neither a plain softmax nor a scaling. */
  lemma BlockMasking(b: Block, x: Term, p: Term -> bool)
    requires b.n_heads > 0 && NotInNeo(p)
    ensures Contains(b.Apply(x), IsMasked)
    ensures !Contains(x, p) ==> !Contains(b.Apply(x), p)
  {
    var ln0x := Norm(b.Ln0(), x);
    AttentionPrimitives(b.Attn(), ln0x);
    var y := Binary(Add, b.Attn().Apply(ln0x), x);
    assert Contains(y, IsMasked);
    if !Contains(x, p) {
      AttentionAvoids(b.Attn(), ln0x, p);
      assert !Contains(y, p);
      var ln1y := Norm(b.Ln1(), y);
      assert !Contains(Linear(b.Ffn().Up(), ln1y), p);
      assert !Contains(Unary(Gelu, Linear(b.Ffn().Up(), ln1y)), p);
    }
  }

  /** Block i is at `blocks[i]` and is given attention type i. */
  predicate IsBlockAt(id: Path, n_heads: nat, n_embd: nat, windowSize: nat, blocks: seq<Block>)
  {
    forall i :: 0 <= i < |blocks| ==>
      blocks[i] == Block(id + [Field("blocks"), Index(i)], n_heads, n_embd, i, windowSize)
  }

  /** `GPTNEO(n_layer, n_heads, n_embd, window_size)`. */
  class GPTNEO {
    const id: Path
    const n_layer: nat
    const n_heads: nat
    const n_embd: nat
    const windowSize: nat
    const blocks: seq<Block>
    const ln_f: NormLayer

    predicate Valid()
    {
      |blocks| == n_layer && IsBlockAt(id, n_heads, n_embd, windowSize, blocks) &&
      ln_f == LayerNorm(id + [Field("ln_f")], n_embd)
    }

    /** Pushes block i with attention type i, for i in 0..n_layer-1, then makes ln_f. */
    constructor (id: Path, n_layer: nat, n_heads: nat, n_embd: nat, window_size: nat)
      ensures this.id == id && this.n_layer == n_layer && this.n_heads == n_heads && this.n_embd == n_embd
      ensures windowSize == window_size
      ensures Valid()
    {
      var bs: seq<Block> := [];
      var i := 0;
      while i < n_layer
        invariant 0 <= i <= n_layer
        invariant |bs| == i && IsBlockAt(id, n_heads, n_embd, window_size, bs)
      {
        bs := bs + [Block(id + [Field("blocks"), Index(i)], n_heads, n_embd, i, window_size)];
        i := i + 1;
      }
      this.id := id;
      this.n_layer := n_layer;
      this.n_heads := n_heads;
      this.n_embd := n_embd;
      windowSize := window_size;
      blocks := bs;
      ln_f := LayerNorm(id + [Field("ln_f")], n_embd);
    }

    function Stack(input: Term): Term
    {
      ApplyAll(ApplyBlock, blocks, input)
    }

    function Apply(input: Term): Term
    {
      Norm(ln_f, Stack(input))
    }

    /** `_forward`: the block loop, then ln_f. */
    method Forward(input: Term) returns (r: Term)
      requires Valid()
      ensures r == Apply(input)
    {
      var x := input;
      var i := 0;
      while i < n_layer
        invariant 0 <= i <= n_layer
        invariant x == ApplyAll(ApplyBlock, blocks[..i], input)
      {
        assert blocks[..i + 1][..i] == blocks[..i];
        x := blocks[i].Apply(x);
        i := i + 1;
      }
      assert blocks[..n_layer] == blocks;
      r := Norm(ln_f, x);
    }
  }

  /** Block k reads the output of blocks 0..k-1. */
  lemma BlockOrder(m: GPTNEO, input: Term, k: nat)
    requires m.Valid() && k < m.n_layer
    ensures m.Stack(input) == ApplyAll(ApplyBlock, m.blocks[k + 1..],
              m.blocks[k].Apply(ApplyAll(ApplyBlock, m.blocks[..k], input)))
    ensures m.blocks[k].attentionType == k
  {
    ApplyAllSplit(ApplyBlock, m.blocks, k + 1, input);
    assert m.blocks[..k + 1][..k] == m.blocks[..k];
  }

  lemma ModelPreNorm(m: GPTNEO, input: Term)
    ensures m.Apply(input).Norm? && m.Apply(input).norm == m.ln_f
    ensures OnResidualPath(input, m.Apply(input).x)
  {
    var p := t => OnResidualPath(input, t);
    forall j, t | 0 <= j < |m.blocks| && p(t) ensures p(ApplyBlock(m.blocks[j], t)) {
      ResidualExtends(m.blocks[j], input, t);
    }
    ApplyAllInvariant(ApplyBlock, m.blocks, input, p);
  }

  /**
   * Giving every block attention type 0 (and window size 0) builds the
   * same model: the per-block attention type is never used.
   */
  lemma ModelIgnoresAttentionType(m: GPTNEO, input: Term)
    ensures m.Stack(input) ==
      ApplyAll(ApplyBlock, seq(|m.blocks|, i requires 0 <= i < |m.blocks| =>
                                 m.blocks[i].(attentionType := 0, windowSize := 0)), input)
  {
    var uniform := seq(|m.blocks|, i requires 0 <= i < |m.blocks| => m.blocks[i].(attentionType := 0, windowSize := 0));
    forall j, t | 0 <= j < |m.blocks| ensures ApplyBlock(m.blocks[j], t) == ApplyBlock(uniform[j], t) {
      BlockIgnoresAttentionType(m.blocks[j], t);
    }
    ApplyAllCongruent(ApplyBlock, m.blocks, ApplyBlock, uniform, input);
  }

  lemma StackShape(m: GPTNEO, input: Term, s: Shape, r: nat)
    requires m.Valid() && HeadsDivide(m.n_embd, m.n_heads)
    requires ShapeOf(input, s) == Some(Mat(r, m.n_embd))
    ensures ShapeOf(m.Stack(input), s) == Some(Mat(r, m.n_embd))
  {
    var p := t => ShapeOf(t, s) == Some(Mat(r, m.n_embd));
    forall j, t | 0 <= j < |m.blocks| && p(t) ensures p(ApplyBlock(m.blocks[j], t)) {
      BlockShape(m.blocks[j], t, s, r);
    }
    ApplyAllInvariant(ApplyBlock, m.blocks, input, p);
  }

  lemma StackUndefined(m: GPTNEO, input: Term, s: Shape, r: nat)
    requires m.Valid() && !HeadsDivide(m.n_embd, m.n_heads) && m.n_layer > 0
    requires ShapeOf(input, s) == Some(Mat(r, m.n_embd))
    ensures ShapeOf(m.Stack(input), s) == None
  {
    var p := t => ShapeOf(t, s) == None;
    var first := m.blocks[0].Apply(input);
    BlockShape(m.blocks[0], input, s, r);
    var rest := m.blocks[1..];
    forall j, t | 0 <= j < |rest| && p(t) ensures p(ApplyBlock(rest[j], t)) {
      BlockUndefined(rest[j], t, s);
    }
    ApplyAllInvariant(ApplyBlock, rest, first, p);
    ApplyAllSplit(ApplyBlock, m.blocks, 1, input);
    assert ApplyAll(ApplyBlock, m.blocks[..1], input) == first by {
      assert m.blocks[..1][..0] == [];
    }
  }

  /** Shape preserved exactly when the head count divides n_embd (given at least one layer). */
  lemma ModelShape(m: GPTNEO, input: Term, s: Shape, r: nat)
    requires m.Valid()
    requires ShapeOf(input, s) == Some(Mat(r, m.n_embd))
    ensures HeadsDivide(m.n_embd, m.n_heads) ==> ShapeOf(m.Apply(input), s) == Some(Mat(r, m.n_embd))
    ensures !HeadsDivide(m.n_embd, m.n_heads) && m.n_layer > 0 ==> ShapeOf(m.Apply(input), s) == None
  {
    if HeadsDivide(m.n_embd, m.n_heads) {
      StackShape(m, input, s, r);
    } else if m.n_layer > 0 {
      StackUndefined(m, input, s, r);
    }
  }

  /** GPT-Neo is causal and, unlike the other families, never applies the attention scale. */
  lemma ModelMasking(m: GPTNEO, input: Term)
    requires m.Valid() && m.n_layer > 0 && m.n_heads > 0
    requires !Contains(input, IsPlainSoftmax) && !Contains(input, IsScaled)
    ensures Contains(m.Apply(input), IsMasked)
    ensures !Contains(m.Apply(input), IsPlainSoftmax)
    ensures !Contains(m.Apply(input), IsScaled)
  {
    StackAvoids(m, input, IsPlainSoftmax);
    StackAvoids(m, input, IsScaled);
    var n := |m.blocks| - 1;
    BlockMasking(m.blocks[n], ApplyAll(ApplyBlock, m.blocks[..n], input), IsScaled);
  }

  lemma StackAvoids(m: GPTNEO, input: Term, p: Term -> bool)
    requires m.n_heads > 0 && m.Valid() && NotInNeo(p) && !Contains(input, p)
    ensures !Contains(m.Stack(input), p)
  {
    var q := t => !Contains(t, p);
    forall j, t | 0 <= j < |m.blocks| && q(t) ensures q(ApplyBlock(m.blocks[j], t)) {
      BlockMasking(m.blocks[j], t, p);
    }
    ApplyAllInvariant(ApplyBlock, m.blocks, input, q);
  }

  /** `GPTNEONextWordLogits(n_layer, n_heads, n_embd, n_vocab, window_size)`. */
  class GPTNEONextWordLogits {
    const gptNEO: GPTNEO
    const fc: FC

    constructor (id: Path, n_layer: nat, n_heads: nat, n_embd: nat, n_vocab: nat, window_size: nat)
      ensures gptNEO.id == id + [Field("gptNEO")] && gptNEO.n_layer == n_layer && gptNEO.n_heads == n_heads
      ensures gptNEO.n_embd == n_embd && gptNEO.windowSize == window_size
      ensures gptNEO.Valid()
      ensures fc == FC(id + [Field("fc")], n_embd, n_vocab, false)
    {
      gptNEO := new GPTNEO(id + [Field("gptNEO")], n_layer, n_heads, n_embd, window_size);
      fc := FC(id + [Field("fc")], n_embd, n_vocab, false);
    }

    function Apply(input: Term): Term
    {
      View(Linear(fc, gptNEO.Apply(input)), -1)
    }

    /** `_forward`: the last row of fc(gptNEO(x)). */
    method Forward(input: Term) returns (r: Term)
      requires gptNEO.Valid()
      ensures r == Apply(input)
    {
      var fcIn := gptNEO.Forward(input);
      r := View(Linear(fc, fcIn), -1);
    }
  }

  /** The head yields the n_vocab logits of the last position. */
  lemma LogitsShape(h: GPTNEONextWordLogits, input: Term, s: Shape, r: nat)
    requires h.gptNEO.Valid() && HeadsDivide(h.gptNEO.n_embd, h.gptNEO.n_heads) && h.fc.inDim == h.gptNEO.n_embd
    requires ShapeOf(input, s) == Some(Mat(r, h.gptNEO.n_embd)) && r > 0
    ensures ShapeOf(h.Apply(input), s) == Some(Vec(h.fc.outDim))
  {
    ModelShape(h.gptNEO, input, s, r);
  }
}
