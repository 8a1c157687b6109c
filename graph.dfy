/**
 * The computation graph the transformer modules build.
 *
 * Every `_forward` of the LLM modules is a fixed composition of backend
 * primitives (`matmul`, `softmax`, `gelu`, layer norms, ...). Those
 * primitives are kept uninterpreted: a forward pass is modelled as the
 * symbolic term it builds. Layers with weights carry the path of the
 * member that owns them, so `ln0` and `ln1` of one block are different
 * layers, and so are the FCs of two blocks.
 *
 * On top of the terms this module defines three independent readings
 * used to state properties of the modules:
 *  - `ShapeOf`, the shape a term has for a given input shape (or None
 *    when some primitive is applied to operands it does not accept);
 *  - `Contains`, whether some node of a term satisfies a predicate
 *    (used for masking and scaling properties);
 *  - `Layers`, the set of weight layers a term uses.
 */
module Graph {
  import opened Wrappers

  /** One step of a member path: a field name or a vector index. */
  datatype Seg = Field(name: string) | Index(i: nat)

  type Path = seq<Seg>

  /** An `FC<T>(in, out, bias)` layer owned by the member at `id`. */
  datatype FC = FC(id: Path, inDim: nat, outDim: nat, bias: bool)

  /**
   * A normalisation layer. `RMSNorm` records the optional second
   * constructor argument: `Some(false)` for `RMSNorm(n_embd, false)`,
   * `None` when the default is used.
   */
  datatype NormLayer =
    | LayerNorm(id: Path, dim: nat)
    | RMSNorm(id: Path, dim: nat, second: Option<bool>)
  {
    function Dim(): nat
    {
      match this
      case LayerNorm(_, d) => d
      case RMSNorm(_, d, _) => d
    }
  }

  /** The attention scale `1 / sqrt(n_embd / n_heads)`, kept opaque. */
  datatype Scalar = InvSqrtHeadDim(n_embd: nat, n_heads: nat)

  /** Backend primitives of one operand. */
  datatype UnaryOp =
    | Gelu | Silu | Tanh | Sin | Cos | RotateHalf | RotaryBeforeSinCos
    | Transpose | Softmax | SoftmaxTriangular | Unsqueeze

  /** Backend primitives of two operands. */
  datatype BinaryOp = Add | Mul | MatMul | MatMulTriangular

  datatype Term =
    | Input
    | Linear(fc: FC, x: Term)
    | Norm(norm: NormLayer, x: Term)
    | Unary(op: UnaryOp, x: Term)
    | Binary(bop: BinaryOp, a: Term, b: Term)
    | ScalarMul(x: Term, scalar: Scalar)
    | Split(x: Term, parts: nat)
    | View(x: Term, index: int)
    | Concat(xs: seq<Term>)

  /** Tensor shapes of rank 1, 2 and 3. */
  datatype Shape = Vec(len: nat) | Mat(rows: nat, cols: nat) | Stack(count: nat, r: nat, c: nat)

  /**
   * Shape of a term when `Input` has shape `input`, or None when some
   * primitive gets operands it does not accept:
   *  - FC and norms act on the columns of a matrix;
   *  - `Split(x, n)` cuts the columns of an [r, c] matrix into n equal
   *    parts, giving a stack of n [r, c / n] matrices; it needs n > 0 and
   *    c % n == 0;
   *  - `View(x, i)` takes entry i along the first axis (a negative i
   *    counts from the end);
   *  - the triangular matmul and softmax produce a square score matrix;
   *  - `Concat` joins matrices with equal row counts along the columns.
   */
  function ShapeOf(t: Term, input: Shape): Option<Shape>
    decreases t
  {
    match t
    case Input => Some(input)
    case Linear(fc, x) => LinearShape(fc, ShapeOf(x, input))
    case Norm(n, x) => NormShape(n, ShapeOf(x, input))
    case Unary(op, x) => UnaryShape(op, ShapeOf(x, input))
    case Binary(op, a, b) => BinaryShape(op, ShapeOf(a, input), ShapeOf(b, input))
    case ScalarMul(x, _) => ShapeOf(x, input)
    case Split(x, n) => SplitShape(ShapeOf(x, input), n)
    case View(x, i) => ViewShape(ShapeOf(x, input), i)
    case Concat(xs) => ConcatShape(xs, input)
  }

  predicate IsMatrix(s: Option<Shape>) { s.Some? && s.value.Mat? }

  function LinearShape(fc: FC, s: Option<Shape>): Option<Shape>
  {
    if IsMatrix(s) && s.value.cols == fc.inDim then Some(Mat(s.value.rows, fc.outDim)) else None
  }

  function NormShape(n: NormLayer, s: Option<Shape>): Option<Shape>
  {
    if IsMatrix(s) && s.value.cols == n.Dim() then s else None
  }

  function UnaryShape(op: UnaryOp, s: Option<Shape>): Option<Shape>
  {
    match op
    case Transpose => if IsMatrix(s) then Some(Mat(s.value.cols, s.value.rows)) else None
    case Softmax => if IsMatrix(s) then s else None
    case SoftmaxTriangular => if IsMatrix(s) && s.value.rows == s.value.cols then s else None
    case Unsqueeze =>
      if s.Some? && s.value.Vec? then Some(Mat(1, s.value.len))
      else if IsMatrix(s) then Some(Stack(1, s.value.rows, s.value.cols))
      else None
    case _ => s
  }

  /** Elementwise ops need equal shapes; the triangular matmul yields square scores only. */
  function BinaryShape(op: BinaryOp, a: Option<Shape>, b: Option<Shape>): Option<Shape>
  {
    match op
    case Add => if a.Some? && a == b then a else None
    case Mul => if a.Some? && a == b then a else None
    case MatMul =>
      if IsMatrix(a) && IsMatrix(b) && a.value.cols == b.value.rows
      then Some(Mat(a.value.rows, b.value.cols)) else None
    case MatMulTriangular =>
      if IsMatrix(a) && IsMatrix(b) && a.value.cols == b.value.rows && a.value.rows == b.value.cols
      then Some(Mat(a.value.rows, b.value.cols)) else None
  }

  function SplitShape(s: Option<Shape>, n: nat): Option<Shape>
  {
    if IsMatrix(s) && n > 0 && s.value.cols % n == 0 then Some(Stack(n, s.value.rows, s.value.cols / n))
    else None
  }

  function ViewShape(s: Option<Shape>, i: int): Option<Shape>
  {
    match s
    case Some(Stack(n, r, c)) => if -(n as int) <= i < n as int then Some(Mat(r, c)) else None
    case Some(Mat(r, c)) => if -(r as int) <= i < r as int then Some(Vec(c)) else None
    case _ => None
  }

  /** Shape of `Concat(xs)`: a non-empty list of matrices with equal rows. */
  function ConcatShape(xs: seq<Term>, input: Shape): Option<Shape>
    decreases xs
  {
    if xs == [] then None
    else
      var s := ShapeOf(xs[0], input);
      if !IsMatrix(s) then None
      else if |xs| == 1 then s
      else
        var rest := ConcatShape(xs[1..], input);
        if IsMatrix(rest) && rest.value.rows == s.value.rows then Some(Mat(s.value.rows, s.value.cols + rest.value.cols))
        else None
  }

  /** Some node of t satisfies p. */
  predicate Contains(t: Term, p: Term -> bool)
    decreases t
  {
    p(t) ||
    match t
    case Input => false
    case Linear(_, x) => Contains(x, p)
    case Norm(_, x) => Contains(x, p)
    case Unary(_, x) => Contains(x, p)
    case Binary(_, a, b) => Contains(a, p) || Contains(b, p)
    case ScalarMul(x, _) => Contains(x, p)
    case Split(x, _) => Contains(x, p)
    case View(x, _) => Contains(x, p)
    case Concat(xs) => ContainsAny(xs, p)
  }

  predicate ContainsAny(xs: seq<Term>, p: Term -> bool)
    decreases xs
  {
    xs != [] && (Contains(xs[0], p) || ContainsAny(xs[1..], p))
  }

  /** The causal (lower-triangular) primitives. */
  predicate IsMasked(t: Term)
  {
    (t.Binary? && t.bop == MatMulTriangular) || (t.Unary? && t.op == SoftmaxTriangular)
  }

  /** The unmasked softmax. */
  predicate IsPlainSoftmax(t: Term) { t.Unary? && t.op == Softmax }

  /** Multiplication by the attention scale. */
  predicate IsScaled(t: Term) { t.ScalarMul? }

  /** The weight layers (FCs) a term uses. */
  function Layers(t: Term): set<FC>
    decreases t
  {
    match t
    case Input => {}
    case Linear(fc, x) => {fc} + Layers(x)
    case Norm(_, x) => Layers(x)
    case Unary(_, x) => Layers(x)
    case Binary(_, a, b) => Layers(a) + Layers(b)
    case ScalarMul(x, _) => Layers(x)
    case Split(x, _) => Layers(x)
    case View(x, _) => Layers(x)
    case Concat(xs) => LayersAll(xs)
  }

  function LayersAll(xs: seq<Term>): set<FC>
    decreases xs
  {
    if xs == [] then {} else Layers(xs[0]) + LayersAll(xs[1..])
  }

  /** Concatenating n >= 1 matrices of shape [r, d] gives [r, n * d]. */
  lemma {:induction false} ConcatUniform(xs: seq<Term>, input: Shape, r: nat, d: nat)
    requires xs != []
    requires forall j :: 0 <= j < |xs| ==> ShapeOf(xs[j], input) == Some(Mat(r, d))
    ensures ConcatShape(xs, input) == Some(Mat(r, |xs| * d))
    decreases |xs|
  {
    assert ShapeOf(xs[0], input) == Some(Mat(r, d));
    if |xs| > 1 {
      var tail := xs[1..];
      forall j | 0 <= j < |tail| ensures ShapeOf(tail[j], input) == Some(Mat(r, d)) {
        assert tail[j] == xs[j + 1];
      }
      ConcatUniform(tail, input, r, d);
      ConcatStep(xs, input, r, d, |tail| * d);
      assert d + |tail| * d == |xs| * d by {
        assert |xs| == |tail| + 1;
      }
    }
  }

  lemma ConcatStep(xs: seq<Term>, input: Shape, r: nat, d: nat, m: nat)
    requires |xs| > 1 && ShapeOf(xs[0], input) == Some(Mat(r, d))
    requires ConcatShape(xs[1..], input) == Some(Mat(r, m))
    ensures ConcatShape(xs, input) == Some(Mat(r, d + m))
  {
  }

  /** Concat has no shape when one of its parts has none. */
  lemma {:induction false} ConcatUndefined(xs: seq<Term>, input: Shape, j: nat)
    requires j < |xs| && ShapeOf(xs[j], input) == None
    ensures ConcatShape(xs, input) == None
    decreases |xs|
  {
    if j > 0 && IsMatrix(ShapeOf(xs[0], input)) {
      ConcatUndefined(xs[1..], input, j - 1);
    }
  }

  /** No part satisfies p, so the concatenation does not either. */
  lemma {:induction false} ContainsNone(xs: seq<Term>, p: Term -> bool)
    requires forall j :: 0 <= j < |xs| ==> !Contains(xs[j], p)
    ensures !ContainsAny(xs, p)
    decreases |xs|
  {
    if xs != [] {
      ContainsNone(xs[1..], p);
    }
  }

  /** Some part satisfies p, so the concatenation does too. */
  lemma {:induction false} ContainsSome(xs: seq<Term>, p: Term -> bool, j: nat)
    requires j < |xs| && Contains(xs[j], p)
    ensures ContainsAny(xs, p)
    decreases |xs|
  {
    if j > 0 {
      ContainsSome(xs[1..], p, j - 1);
    }
  }

  /** The layers of a concatenation are the union of the parts' layers. */
  lemma {:induction false} LayersAllUniform(xs: seq<Term>, s: set<FC>)
    requires xs != []
    requires forall j :: 0 <= j < |xs| ==> Layers(xs[j]) == s
    ensures LayersAll(xs) == s
    decreases |xs|
  {
    if |xs| > 1 {
      LayersAllUniform(xs[1..], s);
    }
  }

  /**
   * A stack of blocks applied in index order: block 0 sees the input,
   * block i + 1 sees the output of block i. This is the loop
   * `x = blocks[i]->forward(*x)` of every model's `_forward`.
   */
  function ApplyAll<B>(apply: (B, Term) -> Term, blocks: seq<B>, x: Term): Term
    decreases |blocks|
  {
    if blocks == [] then x
    else apply(blocks[|blocks| - 1], ApplyAll(apply, blocks[..|blocks| - 1], x))
  }

  /** A property every block preserves holds of the whole stack. */
  lemma {:induction false} ApplyAllInvariant<B>(apply: (B, Term) -> Term, blocks: seq<B>, x: Term, p: Term -> bool)
    requires p(x)
    requires forall j, t :: 0 <= j < |blocks| && p(t) ==> p(apply(blocks[j], t))
    ensures p(ApplyAll(apply, blocks, x))
    decreases |blocks|
  {
    if blocks != [] {
      var init := blocks[..|blocks| - 1];
      forall j, t | 0 <= j < |init| && p(t) ensures p(apply(init[j], t)) {
        assert init[j] == blocks[j];
      }
      ApplyAllInvariant(apply, init, x, p);
    }
  }

  /** Running the first k blocks and then the rest is running them all. */
  lemma {:induction false} ApplyAllSplit<B>(apply: (B, Term) -> Term, blocks: seq<B>, k: nat, x: Term)
    requires k <= |blocks|
    ensures ApplyAll(apply, blocks, x) == ApplyAll(apply, blocks[k..], ApplyAll(apply, blocks[..k], x))
    decreases |blocks|
  {
    if k == |blocks| {
      assert blocks[..k] == blocks;
      assert blocks[k..] == [];
    } else {
      var n := |blocks| - 1;
      ApplyAllSplit(apply, blocks[..n], k, x);
      assert blocks[..n][..k] == blocks[..k];
      assert blocks[k..][..|blocks[k..]| - 1] == blocks[..n][k..];
      assert blocks[k..][|blocks[k..]| - 1] == blocks[n];
    }
  }

  /** Two stacks whose blocks agree on every input compute the same term. */
  lemma {:induction false} ApplyAllCongruent<A, B>(f: (A, Term) -> Term, xs: seq<A>, g: (B, Term) -> Term, ys: seq<B>, x: Term)
    requires |xs| == |ys|
    requires forall j, t :: 0 <= j < |xs| ==> f(xs[j], t) == g(ys[j], t)
    ensures ApplyAll(f, xs, x) == ApplyAll(g, ys, x)
    decreases |xs|
  {
    if xs != [] {
      var n := |xs| - 1;
      forall j, t | 0 <= j < n ensures f(xs[..n][j], t) == g(ys[..n][j], t) {
        assert xs[..n][j] == xs[j] && ys[..n][j] == ys[j];
      }
      ApplyAllCongruent(f, xs[..n], g, ys[..n], x);
      assert f(xs[n], ApplyAll(f, xs[..n], x)) == g(ys[n], ApplyAll(g, ys[..n], x));
    }
  }

  /**
   * Pre-norm residual stream: x reaches t through the second operands of
   * additions only, so no normalisation is applied to it on the way.
   */
  predicate OnResidualPath(x: Term, t: Term)
    decreases t
  {
    t == x || (t.Binary? && t.bop == Add && OnResidualPath(x, t.b))
  }
}
