/**
 * The building blocks shared by the LLM families: the two feed-forward
 * networks and the four multi-head attention variants.
 *
 * A module is a value holding its configuration and the path of the
 * member that owns it; its weight layers are derived from the path, so
 * two modules at different paths never share a layer. `Apply` is the term
 * a forward pass builds; the attention loop over heads is a method proved
 * to build exactly that term.
 */
module LLMBase {
  import opened Wrappers
  import opened Graph

  /** What `always_assert(n_embd % n_heads == 0)` lets through. */
  predicate HeadsDivide(n_embd: nat, n_heads: nat)
  {
    n_heads > 0 && n_embd % n_heads == 0
  }

  /** `FFN(in, hidden)`: `down(gelu(up(x)))` with biased FCs in→hidden→in. */
  datatype FFN = FFN(id: Path, inDim: nat, hidden: nat)
  {
    function Up(): FC { FC(id + [Field("up")], inDim, hidden, true) }

    function Down(): FC { FC(id + [Field("down")], hidden, inDim, true) }

    function Apply(x: Term): Term
    {
      Linear(Down(), Unary(Gelu, Linear(Up(), x)))
    }
  }

  /** `FFN_LLAMA(in, intermediate_size)`: `down(mul(silu(up1 x), up2 x))`, no biases. */
  datatype FFNLlama = FFNLlama(id: Path, inDim: nat, intermediate: nat)
  {
    function Up1(): FC { FC(id + [Field("up1")], inDim, intermediate, false) }

    function Up2(): FC { FC(id + [Field("up2")], inDim, intermediate, false) }

    function Down(): FC { FC(id + [Field("down")], intermediate, inDim, false) }

    function Apply(x: Term): Term
    {
      Linear(Down(), Binary(Mul, Unary(Silu, Linear(Up1(), x)), Linear(Up2(), x)))
    }
  }

  /** FFN widens to `hidden` and comes back to `in`, through its two biased FCs. */
  lemma FFNPreservesWidth(f: FFN, x: Term, input: Shape, r: nat)
    requires ShapeOf(x, input) == Some(Mat(r, f.inDim))
    ensures ShapeOf(f.Apply(x), input) == Some(Mat(r, f.inDim))
    ensures ShapeOf(Unary(Gelu, Linear(f.Up(), x)), input) == Some(Mat(r, f.hidden))
    ensures Layers(f.Apply(x)) == Layers(x) + {f.Up(), f.Down()}
    ensures f.Up().bias && f.Down().bias
  {
    assert ShapeOf(Linear(f.Up(), x), input) == Some(Mat(r, f.hidden));
    assert ShapeOf(Unary(Gelu, Linear(f.Up(), x)), input) == Some(Mat(r, f.hidden));
    assert Layers(Unary(Gelu, Linear(f.Up(), x))) == {f.Up()} + Layers(x);
  }

  /** FFN_LLAMA widens to `intermediate` and comes back, through three bias-free FCs. */
  lemma FFNLlamaPreservesWidth(f: FFNLlama, x: Term, input: Shape, r: nat)
    requires ShapeOf(x, input) == Some(Mat(r, f.inDim))
    ensures ShapeOf(f.Apply(x), input) == Some(Mat(r, f.inDim))
    ensures ShapeOf(Binary(Mul, Unary(Silu, Linear(f.Up1(), x)), Linear(f.Up2(), x)), input)
            == Some(Mat(r, f.intermediate))
    ensures Layers(f.Apply(x)) == Layers(x) + {f.Up1(), f.Up2(), f.Down()}
    ensures !f.Up1().bias && !f.Up2().bias && !f.Down().bias
  {
    var a := Linear(f.Up1(), x);
    var b := Linear(f.Up2(), x);
    assert ShapeOf(a, input) == Some(Mat(r, f.intermediate)) && ShapeOf(b, input) == Some(Mat(r, f.intermediate));
    assert ShapeOf(Unary(Silu, a), input) == Some(Mat(r, f.intermediate));
    assert Layers(a) == {f.Up1()} + Layers(x) && Layers(b) == {f.Up2()} + Layers(x);
    assert Layers(Unary(Silu, a)) == Layers(a);
    assert Layers(Binary(Mul, Unary(Silu, a), b)) == Layers(a) + Layers(b);
  }

  /**
   * The four attention classes. `NEO` records the `attention_type` and
   * `window_size` arguments of its constructor; the class itself never
   * stores them, and `NeoIgnoresAttentionType` shows the term does not
   * depend on them.
   */
  datatype Variant = BERT | GPT2 | NEO(attentionType: nat, windowSize: nat) | LLAMA

  /** The rotary embedding `add(mul(x, cos), mul(rotate_half(x), sin))`. */
  function Rotary(x: Term, sinEmb: Term, cosEmb: Term): Term
  {
    Binary(Add, Binary(Mul, x, cosEmb), Binary(Mul, Unary(RotateHalf, x), sinEmb))
  }

  /**
   * The body of the head loop, given the head's slices q, k, v and the
   * scale: BERT uses the plain matmul and softmax, GPT2 the triangular
   * ones, NEO the triangular ones without scaling (both parity branches
   * are the same), LLAMA rotates q and k with sin/cos computed from v.
   */
  function HeadOf(variant: Variant, q: Term, k: Term, v: Term, d: Scalar): Term
  {
    match variant
    case BERT =>
      Binary(MatMul, Unary(Softmax, ScalarMul(Binary(MatMul, q, Unary(Transpose, k)), d)), v)
    case GPT2 =>
      Binary(MatMul, Unary(SoftmaxTriangular, ScalarMul(Binary(MatMulTriangular, q, Unary(Transpose, k)), d)), v)
    case NEO(attentionType, _) =>
      var qks := Binary(MatMulTriangular, q, Unary(Transpose, k));
      var sm := if attentionType % 2 == 0 then Unary(SoftmaxTriangular, qks) else Unary(SoftmaxTriangular, qks);
      Binary(MatMul, sm, v)
    case LLAMA =>
      var rot := Unary(RotaryBeforeSinCos, v);
      var sinEmb, cosEmb := Unary(Sin, rot), Unary(Cos, rot);
      var qr := Rotary(q, sinEmb, cosEmb);
      var kr := Rotary(k, sinEmb, cosEmb);
      Binary(MatMul, Unary(SoftmaxTriangular, ScalarMul(Binary(MatMulTriangular, qr, Unary(Transpose, kr)), d)), v)
  }

  datatype Attention = Attention(variant: Variant, id: Path, n_heads: nat, n_embd: nat)
  {
    /** The constructor's `always_assert`. */
    predicate Valid() { HeadsDivide(n_embd, n_heads) }

    /** Fused q/k/v projection of BERT and GPT2. */
    function CAttn(): FC { FC(id + [Field("c_attn")], n_embd, 3 * n_embd, true) }

    /** Separate q/k/v projections of NEO and LLAMA, all without bias. */
    function QAttn(): FC { FC(id + [Field("q_attn")], n_embd, n_embd, false) }

    function KAttn(): FC { FC(id + [Field("k_attn")], n_embd, n_embd, false) }

    function VAttn(): FC { FC(id + [Field("v_attn")], n_embd, n_embd, false) }

    /** Output projection; only LLAMA's has no bias. */
    function CProj(): FC { FC(id + [Field("c_proj")], n_embd, n_embd, !variant.LLAMA?) }

    predicate Fused() { variant.BERT? || variant.GPT2? }

    /** The FCs the constructor allocates. */
    function Projections(): set<FC>
    {
      if Fused() then {CAttn(), CProj()} else {QAttn(), KAttn(), VAttn(), CProj()}
    }

    /** `q_heads`, `k_heads`, `v_heads`: views 0, 1, 2 of the fused split, or one FC each. */
    function QHeads(input: Term): Term
    {
      if Fused() then View(Split(Linear(CAttn(), input), 3), 0) else Linear(QAttn(), input)
    }

    function KHeads(input: Term): Term
    {
      if Fused() then View(Split(Linear(CAttn(), input), 3), 1) else Linear(KAttn(), input)
    }

    function VHeads(input: Term): Term
    {
      if Fused() then View(Split(Linear(CAttn(), input), 3), 2) else Linear(VAttn(), input)
    }

    /** Slice i of a per-head split. */
    function Slice(heads: Term, i: nat): Term
    {
      View(Split(heads, n_heads), i)
    }

    /** The result of head i. */
    function Head(input: Term, i: nat): Term
    {
      HeadOf(variant, Slice(QHeads(input), i), Slice(KHeads(input), i), Slice(VHeads(input), i),
             InvSqrtHeadDim(n_embd, n_heads))
    }

    /** The per-head results in head-index order. */
    function Heads(input: Term): seq<Term>
    {
      seq(n_heads, i requires 0 <= i < n_heads => Head(input, i))
    }

    /** The term `_forward` returns. */
    function Apply(input: Term): Term
    {
      Linear(CProj(), Concat(Heads(input)))
    }

    /** `_forward`: the head loop pushing into `qks_sm_vs`, then concat and c_proj. */
    method Forward(input: Term) returns (r: Term)
      ensures r == Apply(input)
    {
      var qksSmVs: seq<Term> := [];
      var i := 0;
      while i < n_heads
        invariant 0 <= i <= n_heads
        invariant qksSmVs == Heads(input)[..i]
      {
        qksSmVs := qksSmVs + [Head(input, i)];
        i := i + 1;
      }
      assert qksSmVs == Heads(input);
      r := Linear(CProj(), Concat(qksSmVs));
    }
  }

  lemma DivMulCancel(e: nat, h: nat)
    requires HeadsDivide(e, h)
    ensures h * (e / h) == e
  {
  }

  // ----- one head, on abstract slices -----

  /** The rotary embedding keeps the shape of its operand. */
  lemma RotaryShape(x: Term, v: Term, s: Shape, sh: Shape)
    requires ShapeOf(x, s) == Some(sh) && ShapeOf(v, s) == Some(sh)
    ensures ShapeOf(Rotary(x, Unary(Sin, Unary(RotaryBeforeSinCos, v)), Unary(Cos, Unary(RotaryBeforeSinCos, v))), s)
            == Some(sh)
  {
    var rot := Unary(RotaryBeforeSinCos, v);
    assert ShapeOf(rot, s) == Some(sh);
    assert ShapeOf(Unary(Sin, rot), s) == Some(sh) && ShapeOf(Unary(Cos, rot), s) == Some(sh);
    assert ShapeOf(Unary(RotateHalf, x), s) == Some(sh);
  }

  /** For [r, d] slices, q·kᵀ is an [r, r] score matrix. */
  lemma ScoreShape(q: Term, k: Term, s: Shape, r: nat, d: nat)
    requires ShapeOf(q, s) == Some(Mat(r, d)) && ShapeOf(k, s) == Some(Mat(r, d))
    ensures ShapeOf(Binary(MatMul, q, Unary(Transpose, k)), s) == Some(Mat(r, r))
    ensures ShapeOf(Binary(MatMulTriangular, q, Unary(Transpose, k)), s) == Some(Mat(r, r))
  {
    assert ShapeOf(Unary(Transpose, k), s) == Some(Mat(d, r));
  }

  /** Every head maps [r, d] slices to an [r, d] result. */
  lemma HeadOfShape(variant: Variant, q: Term, k: Term, v: Term, sc: Scalar, s: Shape, r: nat, d: nat)
    requires ShapeOf(q, s) == Some(Mat(r, d)) && ShapeOf(k, s) == Some(Mat(r, d)) && ShapeOf(v, s) == Some(Mat(r, d))
    ensures ShapeOf(HeadOf(variant, q, k, v, sc), s) == Some(Mat(r, d))
  {
    match variant
    case LLAMA =>
      var rot := Unary(RotaryBeforeSinCos, v);
      var qr := Rotary(q, Unary(Sin, rot), Unary(Cos, rot));
      var kr := Rotary(k, Unary(Sin, rot), Unary(Cos, rot));
      RotaryShape(q, v, s, Mat(r, d));
      RotaryShape(k, v, s, Mat(r, d));
      ScoreShape(qr, kr, s, r, d);
      WeightedShape(Binary(MatMulTriangular, qr, Unary(Transpose, kr)), v, sc, s, r, d);
    case NEO(_, _) =>
      ScoreShape(q, k, s, r, d);
      WeightedShape(Binary(MatMulTriangular, q, Unary(Transpose, k)), v, sc, s, r, d);
    case GPT2 =>
      ScoreShape(q, k, s, r, d);
      WeightedShape(Binary(MatMulTriangular, q, Unary(Transpose, k)), v, sc, s, r, d);
    case BERT =>
      ScoreShape(q, k, s, r, d);
      WeightedShape(Binary(MatMul, q, Unary(Transpose, k)), v, sc, s, r, d);
  }

  /** [r, r] scores turned into weights and applied to an [r, d] value slice give [r, d]. */
  lemma WeightedShape(w: Term, v: Term, sc: Scalar, s: Shape, r: nat, d: nat)
    requires ShapeOf(w, s) == Some(Mat(r, r)) && ShapeOf(v, s) == Some(Mat(r, d))
    ensures ShapeOf(Binary(MatMul, Unary(Softmax, ScalarMul(w, sc)), v), s) == Some(Mat(r, d))
    ensures ShapeOf(Binary(MatMul, Unary(SoftmaxTriangular, ScalarMul(w, sc)), v), s) == Some(Mat(r, d))
    ensures ShapeOf(Binary(MatMul, Unary(SoftmaxTriangular, w), v), s) == Some(Mat(r, d))
  {
    assert ShapeOf(ScalarMul(w, sc), s) == Some(Mat(r, r));
    assert ShapeOf(Unary(Softmax, ScalarMul(w, sc)), s) == Some(Mat(r, r));
    assert ShapeOf(Unary(SoftmaxTriangular, ScalarMul(w, sc)), s) == Some(Mat(r, r));
    assert ShapeOf(Unary(SoftmaxTriangular, w), s) == Some(Mat(r, r));
  }

  /** A head has no shape when its value slice has none. */
  lemma HeadOfShapeUndefined(variant: Variant, q: Term, k: Term, v: Term, sc: Scalar, s: Shape)
    requires ShapeOf(v, s) == None
    ensures ShapeOf(HeadOf(variant, q, k, v, sc), s) == None
  {
    if variant.LLAMA? {
      var rot := Unary(RotaryBeforeSinCos, v);
      assert ShapeOf(Unary(Sin, rot), s) == None;
    }
  }

  /** Anything found in q, k or v is found in the head built from them. */
  lemma HeadOfReads(variant: Variant, q: Term, k: Term, v: Term, sc: Scalar, p: Term -> bool)
    requires Contains(q, p) || Contains(k, p) || Contains(v, p)
    ensures Contains(HeadOf(variant, q, k, v, sc), p)
  {
    if !Contains(v, p) {
      match variant
      case LLAMA =>
        var rot := Unary(RotaryBeforeSinCos, v);
        var qr := Rotary(q, Unary(Sin, rot), Unary(Cos, rot));
        var kr := Rotary(k, Unary(Sin, rot), Unary(Cos, rot));
        assert Contains(Binary(Mul, q, Unary(Cos, rot)), p) || Contains(Binary(Mul, k, Unary(Cos, rot)), p);
        assert Contains(qr, p) || Contains(Unary(Transpose, kr), p);
        assert Contains(Binary(MatMulTriangular, qr, Unary(Transpose, kr)), p);
      case NEO(_, _) =>
        assert Contains(Binary(MatMulTriangular, q, Unary(Transpose, k)), p);
      case GPT2 =>
        assert Contains(Binary(MatMulTriangular, q, Unary(Transpose, k)), p);
      case BERT =>
        assert Contains(Binary(MatMul, q, Unary(Transpose, k)), p);
    }
  }

  /**
   * A head built from slices without a node satisfying p has none either,
   * when p only picks out score-path primitives the variant does not use.
   */
  lemma HeadOfAvoids(variant: Variant, q: Term, k: Term, v: Term, sc: Scalar, p: Term -> bool)
    requires !Contains(q, p) && !Contains(k, p) && !Contains(v, p)
    requires forall t :: p(t) ==> IsMasked(t) || IsPlainSoftmax(t) || IsScaled(t)
    requires variant.BERT? ==> forall t :: p(t) ==> IsMasked(t)
    requires !variant.BERT? ==> forall t :: p(t) ==> !IsMasked(t)
    requires !variant.BERT? && !variant.NEO? ==> forall t :: p(t) ==> IsPlainSoftmax(t)
    ensures !Contains(HeadOf(variant, q, k, v, sc), p)
  {
    assert !Contains(Unary(Transpose, k), p);
    match variant
    case LLAMA =>
      var rot := Unary(RotaryBeforeSinCos, v);
      var qr := Rotary(q, Unary(Sin, rot), Unary(Cos, rot));
      var kr := Rotary(k, Unary(Sin, rot), Unary(Cos, rot));
      assert !Contains(Unary(Sin, rot), p) && !Contains(Unary(Cos, rot), p);
      assert !Contains(Binary(Mul, q, Unary(Cos, rot)), p) && !Contains(Binary(Mul, Unary(RotateHalf, q), Unary(Sin, rot)), p);
      assert !Contains(Binary(Mul, k, Unary(Cos, rot)), p) && !Contains(Binary(Mul, Unary(RotateHalf, k), Unary(Sin, rot)), p);
      assert !Contains(qr, p) && !Contains(Unary(Transpose, kr), p);
      var qks := Binary(MatMulTriangular, qr, Unary(Transpose, kr));
      assert !Contains(qks, p);
      assert !Contains(ScalarMul(qks, sc), p);
      assert !Contains(Unary(SoftmaxTriangular, ScalarMul(qks, sc)), p);
    case NEO(_, _) =>
      var qks := Binary(MatMulTriangular, q, Unary(Transpose, k));
      assert !Contains(qks, p);
      assert !Contains(Unary(SoftmaxTriangular, qks), p);
    case GPT2 =>
      var qks := Binary(MatMulTriangular, q, Unary(Transpose, k));
      assert !Contains(qks, p);
      assert !Contains(ScalarMul(qks, sc), p);
      assert !Contains(Unary(SoftmaxTriangular, ScalarMul(qks, sc)), p);
    case BERT =>
      var qks := Binary(MatMul, q, Unary(Transpose, k));
      assert !Contains(qks, p);
      assert !Contains(Unary(Softmax, ScalarMul(qks, sc)), p);
  }

  /** Which score-path primitives each head has, whatever its slices. */
  lemma HeadOfPrimitives(variant: Variant, q: Term, k: Term, v: Term, sc: Scalar)
    ensures variant.BERT? ==> Contains(HeadOf(variant, q, k, v, sc), IsPlainSoftmax)
    ensures !variant.BERT? ==> Contains(HeadOf(variant, q, k, v, sc), IsMasked)
    ensures !variant.NEO? ==> Contains(HeadOf(variant, q, k, v, sc), IsScaled)
  {
    var h := HeadOf(variant, q, k, v, sc);
    match variant
    case NEO(_, _) =>
      assert IsMasked(h.a);
    case _ =>
      assert IsScaled(h.a.x);
  }

  /** A head uses exactly the layers of its slices. */
  lemma HeadOfLayers(variant: Variant, q: Term, k: Term, v: Term, sc: Scalar)
    ensures Layers(HeadOf(variant, q, k, v, sc)) == Layers(q) + Layers(k) + Layers(v)
  {
    match variant
    case LLAMA =>
      var rot := Unary(RotaryBeforeSinCos, v);
      RotaryLayers(q, v);
      RotaryLayers(k, v);
      var qr := Rotary(q, Unary(Sin, rot), Unary(Cos, rot));
      var kr := Rotary(k, Unary(Sin, rot), Unary(Cos, rot));
      ScoreLayers(qr, kr);
      WeightedLayers(Binary(MatMulTriangular, qr, Unary(Transpose, kr)), v, sc);
    case NEO(_, _) =>
      ScoreLayers(q, k);
      WeightedLayers(Binary(MatMulTriangular, q, Unary(Transpose, k)), v, sc);
    case GPT2 =>
      ScoreLayers(q, k);
      WeightedLayers(Binary(MatMulTriangular, q, Unary(Transpose, k)), v, sc);
    case BERT =>
      ScoreLayers(q, k);
      WeightedLayers(Binary(MatMul, q, Unary(Transpose, k)), v, sc);
  }

  lemma ScoreLayers(q: Term, k: Term)
    ensures Layers(Binary(MatMul, q, Unary(Transpose, k))) == Layers(q) + Layers(k)
    ensures Layers(Binary(MatMulTriangular, q, Unary(Transpose, k))) == Layers(q) + Layers(k)
  {
    assert Layers(Unary(Transpose, k)) == Layers(k);
  }

  lemma WeightedLayers(w: Term, v: Term, sc: Scalar)
    ensures Layers(Binary(MatMul, Unary(Softmax, ScalarMul(w, sc)), v)) == Layers(w) + Layers(v)
    ensures Layers(Binary(MatMul, Unary(SoftmaxTriangular, ScalarMul(w, sc)), v)) == Layers(w) + Layers(v)
    ensures Layers(Binary(MatMul, Unary(SoftmaxTriangular, w), v)) == Layers(w) + Layers(v)
  {
    assert Layers(ScalarMul(w, sc)) == Layers(w);
    assert Layers(Unary(Softmax, ScalarMul(w, sc))) == Layers(w);
    assert Layers(Unary(SoftmaxTriangular, ScalarMul(w, sc))) == Layers(w);
    assert Layers(Unary(SoftmaxTriangular, w)) == Layers(w);
  }

  lemma RotaryLayers(x: Term, v: Term)
    ensures Layers(Rotary(x, Unary(Sin, Unary(RotaryBeforeSinCos, v)), Unary(Cos, Unary(RotaryBeforeSinCos, v))))
            == Layers(x) + Layers(v)
  {
    var rot := Unary(RotaryBeforeSinCos, v);
    assert Layers(rot) == Layers(v);
    assert Layers(Unary(Sin, rot)) == Layers(v) && Layers(Unary(Cos, rot)) == Layers(v);
    assert Layers(Unary(RotateHalf, x)) == Layers(x);
    assert Layers(Binary(Mul, x, Unary(Cos, rot))) == Layers(x) + Layers(v);
    assert Layers(Binary(Mul, Unary(RotateHalf, x), Unary(Sin, rot))) == Layers(x) + Layers(v);
  }

  // ----- the projections and slices of one attention -----

  /** q, k and v heads each have shape [r, n_embd]. */
  lemma ProjectionShapes(a: Attention, input: Term, s: Shape, r: nat)
    requires ShapeOf(input, s) == Some(Mat(r, a.n_embd))
    ensures ShapeOf(a.QHeads(input), s) == Some(Mat(r, a.n_embd))
    ensures ShapeOf(a.KHeads(input), s) == Some(Mat(r, a.n_embd))
    ensures ShapeOf(a.VHeads(input), s) == Some(Mat(r, a.n_embd))
  {
    if a.Fused() {
      var x := Linear(a.CAttn(), input);
      assert ShapeOf(x, s) == Some(Mat(r, 3 * a.n_embd));
      assert ShapeOf(Split(x, 3), s) == Some(Stack(3, r, a.n_embd));
    }
  }

  /** Slice i of an [r, n_embd] matrix split into n_heads parts is [r, n_embd / n_heads]. */
  lemma SliceShape(a: Attention, heads: Term, s: Shape, r: nat, i: nat)
    requires ShapeOf(heads, s) == Some(Mat(r, a.n_embd))
    ensures a.Valid() && i < a.n_heads ==> ShapeOf(a.Slice(heads, i), s) == Some(Mat(r, a.n_embd / a.n_heads))
    ensures !a.Valid() ==> ShapeOf(a.Slice(heads, i), s) == None
  {
  }

  /** The q, k and v slices contain no node satisfying p when the input has none. */
  lemma SlicesAvoid(a: Attention, input: Term, i: nat, p: Term -> bool)
    requires !Contains(input, p)
    requires forall t :: p(t) ==> IsMasked(t) || IsPlainSoftmax(t) || IsScaled(t)
    ensures !Contains(a.Slice(a.QHeads(input), i), p)
    ensures !Contains(a.Slice(a.KHeads(input), i), p)
    ensures !Contains(a.Slice(a.VHeads(input), i), p)
  {
    if a.Fused() {
      var x := Linear(a.CAttn(), input);
      assert !Contains(x, p);
      assert !Contains(Split(x, 3), p);
    } else {
      assert !Contains(Linear(a.QAttn(), input), p);
      assert !Contains(Linear(a.KAttn(), input), p);
      assert !Contains(Linear(a.VAttn(), input), p);
    }
    assert !Contains(a.QHeads(input), p) && !Contains(a.KHeads(input), p) && !Contains(a.VHeads(input), p);
  }

  // ----- whole attention -----

  /** Every head of a valid attention maps to an [r, n_embd / n_heads] matrix. */
  lemma HeadShape(a: Attention, input: Term, s: Shape, r: nat, i: nat)
    requires a.Valid() && i < a.n_heads
    requires ShapeOf(input, s) == Some(Mat(r, a.n_embd))
    ensures ShapeOf(a.Head(input, i), s) == Some(Mat(r, a.n_embd / a.n_heads))
  {
    ProjectionShapes(a, input, s, r);
    SliceShape(a, a.QHeads(input), s, r, i);
    SliceShape(a, a.KHeads(input), s, r, i);
    SliceShape(a, a.VHeads(input), s, r, i);
    HeadOfShape(a.variant, a.Slice(a.QHeads(input), i), a.Slice(a.KHeads(input), i),
                a.Slice(a.VHeads(input), i), InvSqrtHeadDim(a.n_embd, a.n_heads), s, r, a.n_embd / a.n_heads);
  }

  lemma AttentionShapeValid(a: Attention, input: Term, s: Shape, r: nat)
    requires a.Valid()
    requires ShapeOf(input, s) == Some(Mat(r, a.n_embd))
    ensures ShapeOf(a.Apply(input), s) == Some(Mat(r, a.n_embd))
  {
    var hs := a.Heads(input);
    var d := a.n_embd / a.n_heads;
    HeadsShape(a, input, s, r);
    ConcatUniform(hs, s, r, d);
    DivMulCancel(a.n_embd, a.n_heads);
    assert |hs| * d == a.n_embd;
    assert ShapeOf(Concat(hs), s) == Some(Mat(r, a.n_embd));
  }

  lemma HeadsShape(a: Attention, input: Term, s: Shape, r: nat)
    requires a.Valid()
    requires ShapeOf(input, s) == Some(Mat(r, a.n_embd))
    ensures |a.Heads(input)| == a.n_heads > 0
    ensures forall j :: 0 <= j < |a.Heads(input)| ==> ShapeOf(a.Heads(input)[j], s) == Some(Mat(r, a.n_embd / a.n_heads))
  {
    var hs := a.Heads(input);
    forall j | 0 <= j < |hs| ensures ShapeOf(hs[j], s) == Some(Mat(r, a.n_embd / a.n_heads)) {
      HeadShape(a, input, s, r, j);
    }
  }

  lemma AttentionShapeInvalid(a: Attention, input: Term, s: Shape, r: nat)
    requires !a.Valid()
    requires ShapeOf(input, s) == Some(Mat(r, a.n_embd))
    ensures ShapeOf(a.Apply(input), s) == None
  {
    var hs := a.Heads(input);
    if a.n_heads > 0 {
      ProjectionShapes(a, input, s, r);
      SliceShape(a, a.VHeads(input), s, r, 0);
      HeadOfShapeUndefined(a.variant, a.Slice(a.QHeads(input), 0), a.Slice(a.KHeads(input), 0),
                           a.Slice(a.VHeads(input), 0), InvSqrtHeadDim(a.n_embd, a.n_heads), s);
      assert hs[0] == a.Head(input, 0);
      ConcatUndefined(hs, s, 0);
    } else {
      assert hs == [];
      assert ShapeOf(Concat(hs), s) == None;
    }
  }

  /**
   * Attention maps an [r, n_embd] input to an [r, n_embd] output exactly
   * when `n_embd % n_heads == 0` (and there is at least one head); with
   * any other head count the split into heads is ill-shaped.
   */
  lemma AttentionShape(a: Attention, input: Term, s: Shape, r: nat)
    requires ShapeOf(input, s) == Some(Mat(r, a.n_embd))
    ensures a.Valid() ==> ShapeOf(a.Apply(input), s) == Some(Mat(r, a.n_embd))
    ensures !a.Valid() ==> ShapeOf(a.Apply(input), s) == None
  {
    if a.Valid() {
      AttentionShapeValid(a, input, s, r);
    } else {
      AttentionShapeInvalid(a, input, s, r);
    }
  }

  /**
   * There are exactly n_heads per-head results, concatenated in index
   * order: entry i reads slice i of q, k and v and multiplies the
   * attention weights by value slice i.
   */
  lemma HeadsInOrder(a: Attention, input: Term)
    ensures a.Apply(input) == Linear(a.CProj(), Concat(a.Heads(input)))
    ensures |a.Heads(input)| == a.n_heads
    ensures forall i :: 0 <= i < a.n_heads ==>
      a.Heads(input)[i].Binary? && a.Heads(input)[i].bop == MatMul &&
      a.Heads(input)[i].b == a.Slice(a.VHeads(input), i)
    ensures forall i :: 0 <= i < a.n_heads ==>
      Contains(a.Heads(input)[i], t => t == a.Slice(a.QHeads(input), i)) &&
      Contains(a.Heads(input)[i], t => t == a.Slice(a.KHeads(input), i))
  {
    forall i | 0 <= i < a.n_heads
      ensures Contains(a.Heads(input)[i], t => t == a.Slice(a.QHeads(input), i))
      ensures Contains(a.Heads(input)[i], t => t == a.Slice(a.KHeads(input), i))
    {
      var q := a.Slice(a.QHeads(input), i);
      var k := a.Slice(a.KHeads(input), i);
      var v := a.Slice(a.VHeads(input), i);
      var sc := InvSqrtHeadDim(a.n_embd, a.n_heads);
      var isQ: Term -> bool := t => t == q;
      var isK: Term -> bool := t => t == k;
      assert Contains(q, isQ) && Contains(k, isK);
      HeadOfReads(a.variant, q, k, v, sc, isQ);
      HeadOfReads(a.variant, q, k, v, sc, isK);
    }
  }

  /** No head contains a node satisfying p (see HeadOfAvoids), so neither does the attention. */
  lemma AttentionAvoids(a: Attention, input: Term, p: Term -> bool)
    requires !Contains(input, p)
    requires forall t :: p(t) ==> IsMasked(t) || IsPlainSoftmax(t) || IsScaled(t)
    requires a.variant.BERT? ==> forall t :: p(t) ==> IsMasked(t)
    requires !a.variant.BERT? ==> forall t :: p(t) ==> !IsMasked(t)
    requires !a.variant.BERT? && !a.variant.NEO? ==> forall t :: p(t) ==> IsPlainSoftmax(t)
    ensures !Contains(a.Apply(input), p)
  {
    var hs := a.Heads(input);
    forall j | 0 <= j < |hs| ensures !Contains(hs[j], p) {
      SlicesAvoid(a, input, j, p);
      HeadOfAvoids(a.variant, a.Slice(a.QHeads(input), j), a.Slice(a.KHeads(input), j),
                   a.Slice(a.VHeads(input), j), InvSqrtHeadDim(a.n_embd, a.n_heads), p);
    }
    ContainsNone(hs, p);
  }

  /** Head 0's primitives show up in the attention. */
  lemma AttentionHas(a: Attention, input: Term, p: Term -> bool)
    requires a.n_heads > 0 && Contains(a.Head(input, 0), p)
    ensures Contains(a.Apply(input), p)
  {
    assert a.Heads(input)[0] == a.Head(input, 0);
    ContainsSome(a.Heads(input), p, 0);
  }

  /**
   * BERT is the only variant with an unmasked softmax; GPT2, NEO and
   * LLAMA use the triangular (causal) matmul and softmax instead.
   */
  lemma Masking(a: Attention, input: Term)
    requires a.n_heads > 0
    requires !Contains(input, IsMasked) && !Contains(input, IsPlainSoftmax)
    ensures Contains(a.Apply(input), IsMasked) <==> !a.variant.BERT?
    ensures Contains(a.Apply(input), IsPlainSoftmax) <==> a.variant.BERT?
  {
    AttentionPrimitives(a, input);
    if a.variant.BERT? {
      AttentionAvoids(a, input, IsMasked);
    } else {
      AttentionAvoids(a, input, IsPlainSoftmax);
    }
  }

  /** Every variant but NEO multiplies the scores by the 1/sqrt(head size) scale. */
  lemma Scaling(a: Attention, input: Term)
    requires a.n_heads > 0
    requires !Contains(input, IsScaled)
    ensures Contains(a.Apply(input), IsScaled) <==> !a.variant.NEO?
  {
    AttentionPrimitives(a, input);
    if a.variant.NEO? {
      AttentionAvoids(a, input, IsScaled);
    }
  }

  /** NEO's output is the same whatever attention type and window size it is given. */
  lemma NeoIgnoresAttentionType(id: Path, n_heads: nat, n_embd: nat, t1: nat, w1: nat, t2: nat, w2: nat, input: Term)
    ensures Attention(NEO(t1, w1), id, n_heads, n_embd).Apply(input) ==
            Attention(NEO(t2, w2), id, n_heads, n_embd).Apply(input)
  {
    var a1 := Attention(NEO(t1, w1), id, n_heads, n_embd);
    var a2 := Attention(NEO(t2, w2), id, n_heads, n_embd);
    forall j | 0 <= j < n_heads ensures a1.Heads(input)[j] == a2.Heads(input)[j] {
      assert a1.Head(input, j) == a2.Head(input, j);
    }
    assert a1.Heads(input) == a2.Heads(input);
  }

  /**
   * The forward pass adds exactly the projections the constructor
   * allocates to the layers of its input; their bias flags are: all set
   * for BERT and GPT2, only c_proj's for NEO, none for LLAMA.
   */
  lemma AttentionLayers(a: Attention, input: Term)
    requires a.n_heads > 0
    ensures Layers(a.Apply(input)) == Layers(input) + a.Projections()
    ensures forall fc :: fc in a.Projections() ==>
      (fc.bias <==> (a.Fused() || (a.variant.NEO? && fc == a.CProj())))
  {
    var hs := a.Heads(input);
    var inner := Layers(input) + if a.Fused() then {a.CAttn()} else {a.QAttn(), a.KAttn(), a.VAttn()};
    forall j | 0 <= j < |hs| ensures Layers(hs[j]) == inner {
      var q := a.Slice(a.QHeads(input), j);
      var k := a.Slice(a.KHeads(input), j);
      var v := a.Slice(a.VHeads(input), j);
      HeadOfLayers(a.variant, q, k, v, InvSqrtHeadDim(a.n_embd, a.n_heads));
      SliceLayers(a, input, j);
      assert hs[j] == a.Head(input, j);
    }
    LayersAllUniform(hs, inner);
    assert Layers(a.Apply(input)) == {a.CProj()} + inner;
  }

  /** The slices of head i add only the q/k/v projections to the input's layers. */
  lemma SliceLayers(a: Attention, input: Term, i: nat)
    ensures a.Fused() ==> Layers(a.Slice(a.QHeads(input), i)) == Layers(input) + {a.CAttn()}
    ensures a.Fused() ==> Layers(a.Slice(a.KHeads(input), i)) == Layers(input) + {a.CAttn()}
    ensures a.Fused() ==> Layers(a.Slice(a.VHeads(input), i)) == Layers(input) + {a.CAttn()}
    ensures !a.Fused() ==> Layers(a.Slice(a.QHeads(input), i)) == Layers(input) + {a.QAttn()}
    ensures !a.Fused() ==> Layers(a.Slice(a.KHeads(input), i)) == Layers(input) + {a.KAttn()}
    ensures !a.Fused() ==> Layers(a.Slice(a.VHeads(input), i)) == Layers(input) + {a.VAttn()}
  {
    if a.Fused() {
      var x := Linear(a.CAttn(), input);
      var l := Layers(input) + {a.CAttn()};
      assert Layers(x) == l;
      assert Layers(Split(x, 3)) == l;
      assert Layers(a.QHeads(input)) == l && Layers(a.KHeads(input)) == l;
      assert Layers(a.VHeads(input)) == l;
    } else {
      assert Layers(a.QHeads(input)) == Layers(input) + {a.QAttn()};
      assert Layers(a.KHeads(input)) == Layers(input) + {a.KAttn()};
      assert Layers(a.VHeads(input)) == Layers(input) + {a.VAttn()};
    }
  }

  /**
   * Whatever its input, a (non-empty) attention has the primitives its
   * variant uses: a plain softmax in BERT, the causal primitives in the
   * others, and the scale everywhere but in NEO.
   */
  lemma AttentionPrimitives(a: Attention, input: Term)
    requires a.n_heads > 0
    ensures a.variant.BERT? ==> Contains(a.Apply(input), IsPlainSoftmax)
    ensures !a.variant.BERT? ==> Contains(a.Apply(input), IsMasked)
    ensures !a.variant.NEO? ==> Contains(a.Apply(input), IsScaled)
  {
    HeadOfPrimitives(a.variant, a.Slice(a.QHeads(input), 0), a.Slice(a.KHeads(input), 0),
                     a.Slice(a.VHeads(input), 0), InvSqrtHeadDim(a.n_embd, a.n_heads));
    if a.variant.BERT? {
      AttentionHas(a, input, IsPlainSoftmax);
    } else {
      AttentionHas(a, input, IsMasked);
    }
    if !a.variant.NEO? {
      AttentionHas(a, input, IsScaled);
    }
  }
}
