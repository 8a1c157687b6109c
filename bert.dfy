/**
 * BERT: LayerNorm on the embeddings, post-norm transformer blocks over
 * the unmasked fused-projection attention, a pooler reading position 0,
 * and a sequence-classification head.
 */
module Bert {
  import opened Wrappers
  import opened Graph
  import opened LLMBase

  /** `TransformerBlockBERT(n_heads, n_embd)`. */
  datatype Block = Block(id: Path, n_heads: nat, n_embd: nat)
  {
    function Attn(): Attention { Attention(BERT, id + [Field("attn")], n_heads, n_embd) }

    function Ffn(): FFN { FFN(id + [Field("ffn")], n_embd, 4 * n_embd) }

    function Ln0(): NormLayer { LayerNorm(id + [Field("ln0")], n_embd) }

    function Ln1(): NormLayer { LayerNorm(id + [Field("ln1")], n_embd) }

    /** `_forward`: ln0 of attention plus input, then ln1 of FFN plus that. */
    function Apply(x: Term): Term
    {
      var ln0Out := Norm(Ln0(), Binary(Add, Attn().Apply(x), x));
      Norm(Ln1(), Binary(Add, Ffn().Apply(ln0Out), ln0Out))
    }
  }

  function ApplyBlock(b: Block, x: Term): Term { b.Apply(x) }

  /**
   * The block is post-norm: the attention reads the raw input, each
   * residual sum is normalised, and so the input is not on the residual
   * path of the output (unlike in the pre-norm blocks).
   */
  lemma BlockPostNorm(b: Block, x: Term)
    ensures b.Apply(x).Norm? && b.Apply(x).norm == b.Ln1()
    ensures b.Apply(x).x.b == Norm(b.Ln0(), Binary(Add, b.Attn().Apply(x), x))
    ensures b.Apply(x).x.a == b.Ffn().Apply(b.Apply(x).x.b)
    ensures !OnResidualPath(x, b.Apply(x))
    ensures b.Ffn().inDim == b.n_embd && b.Ffn().hidden == 4 * b.n_embd
  {
    var sum0 := Binary(Add, b.Attn().Apply(x), x);
    var sum1 := Binary(Add, b.Ffn().Apply(Norm(b.Ln0(), sum0)), Norm(b.Ln0(), sum0));
    assert x < sum0 < Norm(b.Ln0(), sum0) < sum1 < b.Apply(x);
  }

  lemma BlockShape(b: Block, x: Term, s: Shape, r: nat)
    requires ShapeOf(x, s) == Some(Mat(r, b.n_embd))
    ensures HeadsDivide(b.n_embd, b.n_heads) ==> ShapeOf(b.Apply(x), s) == Some(Mat(r, b.n_embd))
    ensures !HeadsDivide(b.n_embd, b.n_heads) ==> ShapeOf(b.Apply(x), s) == None
  {
    AttentionShape(b.Attn(), x, s, r);
    var sum0 := Binary(Add, b.Attn().Apply(x), x);
    if HeadsDivide(b.n_embd, b.n_heads) {
      var l0 := Norm(b.Ln0(), sum0);
      assert ShapeOf(sum0, s) == Some(Mat(r, b.n_embd));
      assert ShapeOf(l0, s) == Some(Mat(r, b.n_embd));
      FFNPreservesWidth(b.Ffn(), l0, s, r);
      assert ShapeOf(Binary(Add, b.Ffn().Apply(l0), l0), s) == Some(Mat(r, b.n_embd));
    } else {
      assert ShapeOf(sum0, s) == None;
      assert ShapeOf(Norm(b.Ln0(), sum0), s) == None;
    }
  }

  lemma BlockUndefined(b: Block, x: Term, s: Shape)
    requires ShapeOf(x, s) == None
    ensures ShapeOf(b.Apply(x), s) == None
  {
    var sum0 := Binary(Add, b.Attn().Apply(x), x);
    assert ShapeOf(sum0, s) == None;
    assert ShapeOf(Norm(b.Ln0(), sum0), s) == None;
  }

  /** A block adds an unmasked softmax and no causal primitive to its input. */
  lemma BlockMasking(b: Block, x: Term)
    requires b.n_heads > 0
    ensures Contains(b.Apply(x), IsPlainSoftmax)
    ensures !Contains(x, IsMasked) ==> !Contains(b.Apply(x), IsMasked)
  {
    AttentionPrimitives(b.Attn(), x);
    var sum0 := Binary(Add, b.Attn().Apply(x), x);
    var l0 := Norm(b.Ln0(), sum0);
    assert Contains(l0, IsPlainSoftmax);
    if !Contains(x, IsMasked) {
      AttentionAvoids(b.Attn(), x, IsMasked);
      assert !Contains(l0, IsMasked);
      assert !Contains(Linear(b.Ffn().Up(), l0), IsMasked);
      assert !Contains(Unary(Gelu, Linear(b.Ffn().Up(), l0)), IsMasked);
      assert !Contains(b.Ffn().Apply(l0), IsMasked);
      assert !Contains(Binary(Add, b.Ffn().Apply(l0), l0), IsMasked);
    }
  }

  predicate IsBlockAt(id: Path, n_heads: nat, n_embd: nat, blocks: seq<Block>)
  {
    forall i :: 0 <= i < |blocks| ==> blocks[i] == Block(id + [Field("blocks"), Index(i)], n_heads, n_embd)
  }

  /** The pooler: row 0, unsqueezed, through `pool`, then tanh. */
  function Pooler(pool: FC, x: Term): Term
  {
    Unary(Tanh, Linear(pool, Unary(Unsqueeze, View(x, 0))))
  }

  lemma PoolerUndefined(pool: FC, x: Term, s: Shape)
    requires ShapeOf(x, s) == None
    ensures ShapeOf(Pooler(pool, x), s) == None
  {
    assert ShapeOf(Unary(Unsqueeze, View(x, 0)), s) == None;
  }

  /** The pooler adds no attention primitive. */
  lemma PoolerContains(pool: FC, x: Term, p: Term -> bool)
    requires forall t :: p(t) ==> IsMasked(t) || IsPlainSoftmax(t)
    ensures Contains(Pooler(pool, x), p) <==> Contains(x, p)
  {
    assert Contains(View(x, 0), p) <==> Contains(x, p);
    assert Contains(Unary(Unsqueeze, View(x, 0)), p) <==> Contains(x, p);
    assert Contains(Linear(pool, Unary(Unsqueeze, View(x, 0))), p) <==> Contains(x, p);
  }

  /** `BERT(n_layer, n_heads, n_embd)`. */
  class BERT {
    const id: Path
    const n_layer: nat
    const n_heads: nat
    const n_embd: nat
    const blocks: seq<Block>
    const ln_f: NormLayer
    const pool: FC

    predicate Valid()
    {
      |blocks| == n_layer && IsBlockAt(id, n_heads, n_embd, blocks) &&
      ln_f == LayerNorm(id + [Field("ln_f")], n_embd) &&
      pool == FC(id + [Field("pool")], n_embd, n_embd, true)
    }

    /** Pushes n_layer blocks in index order, then makes ln_f and the biased pooler FC. */
    constructor (id: Path, n_layer: nat, n_heads: nat, n_embd: nat)
      ensures this.id == id && this.n_layer == n_layer && this.n_heads == n_heads && this.n_embd == n_embd
      ensures Valid()
    {
      var bs: seq<Block> := [];
      var i := 0;
      while i < n_layer
        invariant 0 <= i <= n_layer
        invariant |bs| == i && IsBlockAt(id, n_heads, n_embd, bs)
      {
        bs := bs + [Block(id + [Field("blocks"), Index(i)], n_heads, n_embd)];
        i := i + 1;
      }
      this.id := id;
      this.n_layer := n_layer;
      this.n_heads := n_heads;
      this.n_embd := n_embd;
      blocks := bs;
      ln_f := LayerNorm(id + [Field("ln_f")], n_embd);
      pool := FC(id + [Field("pool")], n_embd, n_embd, true);
    }

    /** ln_f of the input, then the blocks in index order. */
    function Encoder(input: Term): Term
    {
      ApplyAll(ApplyBlock, blocks, Norm(ln_f, input))
    }

    function Apply(input: Term): Term
    {
      Pooler(pool, Encoder(input))
    }

    /** `_forward`: ln_f, the block loop, then the pooler. */
    method Forward(input: Term) returns (r: Term)
      requires Valid()
      ensures r == Apply(input)
    {
      var y := Norm(ln_f, input);
      var x := y;
      var i := 0;
      while i < n_layer
        invariant 0 <= i <= n_layer
        invariant x == ApplyAll(ApplyBlock, blocks[..i], y)
      {
        assert blocks[..i + 1][..i] == blocks[..i];
        x := blocks[i].Apply(x);
        i := i + 1;
      }
      assert blocks[..n_layer] == blocks;
      var x0 := View(x, 0);
      var x0Unsqueeze := Unary(Unsqueeze, x0);
      var poolOut := Linear(pool, x0Unsqueeze);
      r := Unary(Tanh, poolOut);
    }
  }

  /**
   * ln_f acts on the input before any block: block 0 reads ln_f(input),
   * and without layers the pooler reads ln_f(input) directly.
   */
  lemma NormFirst(m: BERT, input: Term)
    requires m.Valid()
    ensures m.n_layer == 0 ==> m.Encoder(input) == Norm(m.ln_f, input)
    ensures m.n_layer > 0 ==>
      (m.Encoder(input) == ApplyAll(ApplyBlock, m.blocks[1..], m.blocks[0].Apply(Norm(m.ln_f, input))))
  {
    if m.n_layer > 0 {
      ApplyAllSplit(ApplyBlock, m.blocks, 1, Norm(m.ln_f, input));
      assert m.blocks[..1][..0] == [];
    }
  }

  /** Block k reads the output of blocks 0..k-1. */
  lemma BlockOrder(m: BERT, input: Term, k: nat)
    requires m.Valid() && k < m.n_layer
    ensures m.Encoder(input) == ApplyAll(ApplyBlock, m.blocks[k + 1..],
              m.blocks[k].Apply(ApplyAll(ApplyBlock, m.blocks[..k], Norm(m.ln_f, input))))
  {
    ApplyAllSplit(ApplyBlock, m.blocks, k + 1, Norm(m.ln_f, input));
    assert m.blocks[..k + 1][..k] == m.blocks[..k];
  }

  lemma EncoderShape(m: BERT, input: Term, s: Shape, r: nat)
    requires m.Valid() && HeadsDivide(m.n_embd, m.n_heads)
    requires ShapeOf(input, s) == Some(Mat(r, m.n_embd))
    ensures ShapeOf(m.Encoder(input), s) == Some(Mat(r, m.n_embd))
  {
    var p := t => ShapeOf(t, s) == Some(Mat(r, m.n_embd));
    forall j, t | 0 <= j < |m.blocks| && p(t) ensures p(ApplyBlock(m.blocks[j], t)) {
      BlockShape(m.blocks[j], t, s, r);
    }
    ApplyAllInvariant(ApplyBlock, m.blocks, Norm(m.ln_f, input), p);
  }

  lemma EncoderUndefined(m: BERT, input: Term, s: Shape, r: nat)
    requires m.Valid() && !HeadsDivide(m.n_embd, m.n_heads) && m.n_layer > 0
    requires ShapeOf(input, s) == Some(Mat(r, m.n_embd))
    ensures ShapeOf(m.Encoder(input), s) == None
  {
    var p := t => ShapeOf(t, s) == None;
    var first := m.blocks[0].Apply(Norm(m.ln_f, input));
    BlockShape(m.blocks[0], Norm(m.ln_f, input), s, r);
    var rest := m.blocks[1..];
    forall j, t | 0 <= j < |rest| && p(t) ensures p(ApplyBlock(rest[j], t)) {
      BlockUndefined(rest[j], t, s);
    }
    ApplyAllInvariant(ApplyBlock, rest, first, p);
    NormFirst(m, input);
  }

  /**
   * For r >= 1 positions BERT yields one pooled [1, n_embd] row when the
   * head count divides n_embd; with any other head count (and at least
   * one layer) the result is ill-shaped.
   */
  lemma ModelShape(m: BERT, input: Term, s: Shape, r: nat)
    requires m.Valid() && r > 0
    requires ShapeOf(input, s) == Some(Mat(r, m.n_embd))
    ensures HeadsDivide(m.n_embd, m.n_heads) ==> ShapeOf(m.Apply(input), s) == Some(Mat(1, m.n_embd))
    ensures !HeadsDivide(m.n_embd, m.n_heads) && m.n_layer > 0 ==> ShapeOf(m.Apply(input), s) == None
  {
    if HeadsDivide(m.n_embd, m.n_heads) {
      EncoderShape(m, input, s, r);
      var x0 := View(m.Encoder(input), 0);
      assert ShapeOf(x0, s) == Some(Vec(m.n_embd));
      assert ShapeOf(Unary(Unsqueeze, x0), s) == Some(Mat(1, m.n_embd));
    } else if m.n_layer > 0 {
      EncoderUndefined(m, input, s, r);
      PoolerUndefined(m.pool, m.Encoder(input), s);
    }
  }

  /** BERT attends without a mask: a plain softmax and no causal primitive. */
  lemma ModelMasking(m: BERT, input: Term)
    requires m.Valid() && m.n_layer > 0 && m.n_heads > 0
    requires !Contains(input, IsMasked)
    ensures Contains(m.Apply(input), IsPlainSoftmax)
    ensures !Contains(m.Apply(input), IsMasked)
  {
    var p := t => !Contains(t, IsMasked);
    forall j, t | 0 <= j < |m.blocks| && p(t) ensures p(ApplyBlock(m.blocks[j], t)) {
      BlockMasking(m.blocks[j], t);
    }
    ApplyAllInvariant(ApplyBlock, m.blocks, Norm(m.ln_f, input), p);
    var n := |m.blocks| - 1;
    BlockMasking(m.blocks[n], ApplyAll(ApplyBlock, m.blocks[..n], Norm(m.ln_f, input)));
    assert Contains(m.Encoder(input), IsPlainSoftmax) && !Contains(m.Encoder(input), IsMasked);
    PoolerContains(m.pool, m.Encoder(input), IsPlainSoftmax);
    PoolerContains(m.pool, m.Encoder(input), IsMasked);
  }

  /** `BERTSequenceClassification(n_layer, n_heads, n_embd, n_labels)`; its BERT member is named `gpt2`. */
  class BERTSequenceClassification {
    const gpt2: BERT
    const fc: FC

    constructor (id: Path, n_layer: nat, n_heads: nat, n_embd: nat, n_labels: nat)
      ensures gpt2.id == id + [Field("gpt2")] && gpt2.n_layer == n_layer && gpt2.n_heads == n_heads && gpt2.n_embd == n_embd
      ensures gpt2.Valid()
      ensures fc == FC(id + [Field("fc")], n_embd, n_labels, true)
    {
      gpt2 := new BERT(id + [Field("gpt2")], n_layer, n_heads, n_embd);
      fc := FC(id + [Field("fc")], n_embd, n_labels, true);
    }

    function Apply(input: Term): Term
    {
      View(Linear(fc, gpt2.Apply(input)), 0)
    }

    /** `_forward`: row 0 of fc(bert(x)). */
    method Forward(input: Term) returns (r: Term)
      requires gpt2.Valid()
      ensures r == Apply(input)
    {
      var fcIn := gpt2.Forward(input);
      r := View(Linear(fc, fcIn), 0);
    }
  }

  /** The classifier yields one row of n_labels scores. */
  lemma ClassifierShape(c: BERTSequenceClassification, input: Term, s: Shape, r: nat)
    requires c.gpt2.Valid() && HeadsDivide(c.gpt2.n_embd, c.gpt2.n_heads) && c.fc.inDim == c.gpt2.n_embd
    requires ShapeOf(input, s) == Some(Mat(r, c.gpt2.n_embd)) && r > 0
    ensures ShapeOf(c.Apply(input), s) == Some(Vec(c.fc.outDim))
  {
    ModelShape(c.gpt2, input, s, r);
  }
}
