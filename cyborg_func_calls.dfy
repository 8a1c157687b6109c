/**
 * The ONNX-to-C++ emitter's operator calls: `get_padding`, which turns an
 * ONNX `auto_pad` attribute into explicit pads, and the `Operator`
 * emitters that print one layer constructor of the generated
 * `Sequential` model each.
 *
 * A Python exception (a missing key, an index out of range, a failed
 * `assert`) is the `None` of an `Option` or the `Raised` of `Emitted`.
 */
module CyborgFuncCalls {
  import opened Wrappers
  import opened Text
  import Ring

  /** The node attributes the emitters read; `auto_pad` already decoded from UTF-8. */
  datatype Attributes = Attributes(
    autoPad: Option<string>,
    pads: Option<seq<int>>,
    strides: Option<seq<int>>,
    kernelShape: Option<seq<int>>)

  /** `value_info[var][1]`: the shape of each variable. */
  type ValueInfo = map<string, seq<int>>

  /** `xs[d]` of an attribute list, failing when the key or the index is missing. */
  function At(xs: Option<seq<int>>, d: nat): Option<int>
  {
    if xs.Some? && d < |xs.value| then Some(xs.value[d]) else None
  }

  /** `value_info[names[k]][1][d]`. */
  function Dim(vi: ValueInfo, names: seq<string>, k: nat, d: nat): Option<int>
  {
    if k < |names| && names[k] in vi && d < |vi[names[k]]| then Some(vi[names[k]][d]) else None
  }

  /** `math.ceil(a / 2)` of an integer. */
  function CeilHalf(a: int): (r: int)
    ensures a <= 2 * r <= a + 1
  {
    (a + 1) / 2
  }

  /** The ceiling is the only integer in that range. */
  lemma CeilHalfUnique(a: int, r: int)
    requires a <= 2 * r <= a + 1
    ensures r == CeilHalf(a)
  {
  }

  /** The pads for an `auto_pad` other than NOTSET and VALID. */
  function SamePadding(attrs: Attributes, inputs: seq<string>, output: seq<string>, vi: ValueInfo): Option<seq<int>>
  {
    var strideH, strideW := At(attrs.strides, 0), At(attrs.strides, 1);
    var outH, outW := Dim(vi, output, 0, 2), Dim(vi, output, 0, 3);
    var inH, inW := Dim(vi, inputs, 0, 2), Dim(vi, inputs, 0, 3);
    var kerH := if attrs.kernelShape.None? then Dim(vi, inputs, 1, 2) else At(attrs.kernelShape, 0);
    var kerW := if attrs.kernelShape.None? then Dim(vi, inputs, 1, 3) else At(attrs.kernelShape, 0);
    if strideH.None? || strideW.None? || outH.None? || outW.None? || inH.None? || inW.None? || kerH.None? || kerW.None? then
      None
    else
      var padH := CeilHalf((outH.value - 1) * strideH.value + kerH.value - inH.value);
      var padW := CeilHalf((outW.value - 1) * strideW.value + kerW.value - inW.value);
      Some([padH, padW, padH, padW])
  }

  /** `get_padding(attributes, inputs, output, value_info, var_dict)`. */
  function GetPadding(attrs: Attributes, inputs: seq<string>, output: seq<string>, vi: ValueInfo): Option<seq<int>>
  {
    match attrs.autoPad
    case None => attrs.pads
    case Some(mode) =>
      if mode == "NOTSET" || mode == "VALID" then
        Some(if attrs.pads.Some? then attrs.pads.value else [0, 0, 0, 0])
      else
        SamePadding(attrs, inputs, output, vi)
  }

  /** NOTSET and VALID keep the given pads, or no padding; without `auto_pad` the pads must be given. */
  lemma ExplicitPadding(attrs: Attributes, inputs: seq<string>, output: seq<string>, vi: ValueInfo)
    ensures attrs.autoPad.None? ==> GetPadding(attrs, inputs, output, vi) == attrs.pads
    ensures attrs.autoPad == Some("NOTSET") || attrs.autoPad == Some("VALID") ==>
              GetPadding(attrs, inputs, output, vi) == Some(if attrs.pads.Some? then attrs.pads.value else [0, 0, 0, 0])
  {
  }

  /** The height and width the computed padding is derived from. */
  predicate SameGeometry(attrs: Attributes, inputs: seq<string>, output: seq<string>, vi: ValueInfo,
                         strideH: int, strideW: int, outH: int, outW: int, inH: int, inW: int, kerH: int, kerW: int)
  {
    At(attrs.strides, 0) == Some(strideH) && At(attrs.strides, 1) == Some(strideW) &&
    Dim(vi, output, 0, 2) == Some(outH) && Dim(vi, output, 0, 3) == Some(outW) &&
    Dim(vi, inputs, 0, 2) == Some(inH) && Dim(vi, inputs, 0, 3) == Some(inW) &&
    (attrs.kernelShape.None? ==> Dim(vi, inputs, 1, 2) == Some(kerH) && Dim(vi, inputs, 1, 3) == Some(kerW)) &&
    (attrs.kernelShape.Some? ==> At(attrs.kernelShape, 0) == Some(kerH) && kerW == kerH)
  }

  /**
   * Any other `auto_pad` pads both sides of each axis with the same
   * amount, half the total the output size calls for, rounded up: the
   * padded input then covers the strided output window exactly or with
   * one element to spare. A given `kernel_shape` supplies its first entry
   * for both axes.
   */
  lemma SymmetricPadding(attrs: Attributes, inputs: seq<string>, output: seq<string>, vi: ValueInfo,
                         strideH: int, strideW: int, outH: int, outW: int, inH: int, inW: int, kerH: int, kerW: int)
    requires attrs.autoPad.Some? && attrs.autoPad != Some("NOTSET") && attrs.autoPad != Some("VALID")
    requires SameGeometry(attrs, inputs, output, vi, strideH, strideW, outH, outW, inH, inW, kerH, kerW)
    ensures GetPadding(attrs, inputs, output, vi).Some?
    ensures var pads := GetPadding(attrs, inputs, output, vi).value;
            |pads| == 4 && pads[0] == pads[2] && pads[1] == pads[3] &&
            (outH - 1) * strideH + kerH <= inH + 2 * pads[0] <= (outH - 1) * strideH + kerH + 1 &&
            (outW - 1) * strideW + kerW <= inW + 2 * pads[1] <= (outW - 1) * strideW + kerW + 1
  {
  }

  /** The computed padding fails exactly when one of the values it reads is missing. */
  lemma SamePaddingDefined(attrs: Attributes, inputs: seq<string>, output: seq<string>, vi: ValueInfo)
    requires attrs.autoPad.Some? && attrs.autoPad != Some("NOTSET") && attrs.autoPad != Some("VALID")
    ensures GetPadding(attrs, inputs, output, vi).Some? <==>
              exists strideH, strideW, outH, outW, inH, inW, kerH, kerW ::
                SameGeometry(attrs, inputs, output, vi, strideH, strideW, outH, outW, inH, inW, kerH, kerW)
  {
    if GetPadding(attrs, inputs, output, vi).Some? {
      var kerH := if attrs.kernelShape.None? then Dim(vi, inputs, 1, 2).value else At(attrs.kernelShape, 0).value;
      var kerW := if attrs.kernelShape.None? then Dim(vi, inputs, 1, 3).value else kerH;
      assert SameGeometry(attrs, inputs, output, vi, At(attrs.strides, 0).value, At(attrs.strides, 1).value,
                          Dim(vi, output, 0, 2).value, Dim(vi, output, 0, 3).value,
                          Dim(vi, inputs, 0, 2).value, Dim(vi, inputs, 0, 3).value, kerH, kerW);
    }
  }

  /* ---------------- Emitted text ---------------- */

  /** One line `new <layer><mode, scale, backend>(<args>),` indented by `3*indent` spaces. */
  function Line(indent: int, layer: string, args: seq<int>): string
  {
    Spaces(indent) + ("new " + Named(layer, args))
  }

  /** `<layer><mode, scale, backend>(<args>),`. */
  function Named(layer: string, args: seq<int>): string
  {
    layer + Template + Join(args) + "),"
  }

  /** What an emitter returns: its text, Python's `None`, or an exception. */
  datatype Emitted = Code(text: string) | NoCode | Raised

  /** `Operator.Relu`: `new ReLU<mode, scale, backend>(),` (an empty argument list joins to ""). */
  function Relu(indent: int): string
  {
    Line(indent, "ReLU", [])
  }

  /** `Operator.Flatten`: `new Flatten<mode, scale, backend>(),`. */
  function Flatten(indent: int): string
  {
    Line(indent, "Flatten", [])
  }

  function Drop2(s: seq<int>): seq<int> { if |s| >= 2 then s[2..] else [] }

  /**
   * `Operator.Conv`: the padding first, then, for two spatial dimensions
   * only, the checks and the `Conv2D(CI, CO, filter, pad, stride)` line;
   * any other rank gives `None`.
   */
  function Conv(attrs: Attributes, inputs: seq<string>, outputs: seq<string>, vi: ValueInfo, indent: int): Emitted
  {
    var pads := GetPadding(attrs, inputs, outputs, vi);
    if pads.None? || inputs == [] || inputs[0] !in vi then Raised
    else if |vi[inputs[0]]| - 2 != 2 then NoCode
    else if !(|inputs| == 2 || |inputs| == 3) then Raised
    else if attrs.strides.None? || |attrs.strides.value| != 2 then Raised
    else if inputs[1] !in vi || attrs.kernelShape.None? || Drop2(vi[inputs[1]]) != attrs.kernelShape.value then Raised
    else
      var co, filter, pad := Dim(vi, outputs, 0, 1), Dim(vi, inputs, 1, 2), At(pads, 0);
      if co.None? || filter.None? || pad.None? then Raised
      else Code(Line(indent, "Conv2D", [vi[inputs[0]][1], co.value, filter.value, pad.value, attrs.strides.value[0]]))
  }

  /** `MaxPool` and `AveragePool`: `kernel_shape[0]`, `pads[0]`, `strides[0]`. */
  function Pool(layer: string, attrs: Attributes, inputs: seq<string>, outputs: seq<string>, vi: ValueInfo, indent: int): Emitted
  {
    var pads := GetPadding(attrs, inputs, outputs, vi);
    if pads.None? then Raised
    else
      var filter, pad, stride := At(attrs.kernelShape, 0), At(pads, 0), At(attrs.strides, 0);
      if filter.None? || pad.None? || stride.None? then Raised
      else Code(Line(indent, layer, [filter.value, pad.value, stride.value]))
  }

  /** `Operator.MaxPool`. */
  function MaxPool(attrs: Attributes, inputs: seq<string>, outputs: seq<string>, vi: ValueInfo, indent: int): Emitted
  {
    Pool("MaxPool2D", attrs, inputs, outputs, vi, indent)
  }

  /** `Operator.AveragePool`. */
  function AveragePool(attrs: Attributes, inputs: seq<string>, outputs: seq<string>, vi: ValueInfo, indent: int): Emitted
  {
    Pool("AvgPool2D", attrs, inputs, outputs, vi, indent)
  }

  /** `Operator.Gemm`: an `FC` from the input's dimension 1 to the output's. */
  function Gemm(inputs: seq<string>, outputs: seq<string>, vi: ValueInfo, indent: int): Emitted
  {
    var inn, out := Dim(vi, inputs, 0, 1), Dim(vi, outputs, 0, 1);
    if inn.None? || out.None? then Raised else Code(Line(indent, "FC", [inn.value, out.value]))
  }

  /* ---------------- Reading a line back ---------------- */

  /** A layer constructor call as the generated C++ states it. */
  datatype Call = Call(indent: nat, layer: string, args: seq<int>)

  const Template: string := "<mode, scale, backend>("

  /** The argument list and the closing `),`. */
  function DecodeArgs(argsAnd: string): Option<seq<int>>
  {
    var close := IndexOf(argsAnd, ')');
    if argsAnd[close..] != ")," then None else ParseList(argsAnd[..close])
  }

  /** The layer name, the template arguments and the call's arguments. */
  function DecodeNamed(body: string): Option<(string, seq<int>)>
  {
    var lt := IndexOf(body, '<');
    var after := body[lt..];
    if |after| < |Template| || after[..|Template|] != Template then None
    else
      match DecodeArgs(after[|Template|..])
      case None => None
      case Some(xs) => Some((body[..lt], xs))
  }

  /** Reads an emitted constructor line back into its indentation, layer and arguments. */
  function DecodeLine(line: string): Option<Call>
  {
    var k := LeadingSpaces(line);
    var rest := line[k..];
    if k % 3 != 0 || |rest| < 4 || rest[..4] != "new " then None
    else
      match DecodeNamed(rest[4..])
      case None => None
      case Some(named) => Some(Call(k / 3, named.0, named.1))
  }

  lemma ArgsRoundTrip(args: seq<int>)
    ensures DecodeArgs(Join(args) + "),") == Some(args)
  {
    var argsAnd := Join(args) + "),";
    JoinHasNoParen(args);
    IndexOfPrefix(Join(args), "),", ')');
    assert argsAnd[..|Join(args)|] == Join(args);
    assert argsAnd[|Join(args)|..] == "),";
    JoinRoundTrip(args);
  }

  lemma NamedRoundTrip(layer: string, args: seq<int>)
    requires '<' !in layer
    ensures DecodeNamed(Named(layer, args)) == Some((layer, args))
  {
    var after := Template + Join(args) + "),";
    var body := layer + after;
    assert Named(layer, args) == body;
    assert after[0] == '<';
    IndexOfPrefix(layer, after, '<');
    assert body[..|layer|] == layer && body[|layer|..] == after;
    assert after[..|Template|] == Template;
    assert after[|Template|..] == Join(args) + "),";
    ArgsRoundTrip(args);
  }

  lemma Thirds(n: nat)
    ensures (3 * n) % 3 == 0 && (3 * n) / 3 == n
  {
    Ring.DivModUnique(3 * n, 3, n, 0);
  }

  /** Every emitted line reads back as the call it was emitted for. */
  lemma LineRoundTrip(indent: int, layer: string, args: seq<int>)
    requires indent >= 0 && '<' !in layer
    ensures DecodeLine(Line(indent, layer, args)) == Some(Call(indent, layer, args))
  {
    var tail := "new " + Named(layer, args);
    LeadingSpacesOf(indent, tail);
    Thirds(indent);
    assert tail[..4] == "new " && tail[4..] == Named(layer, args);
    NamedRoundTrip(layer, args);
  }

  /** `Relu` and `Flatten` are argument-free constructor lines. */
  lemma FixedLines(indent: int)
    requires indent >= 0
    ensures DecodeLine(Relu(indent)) == Some(Call(indent, "ReLU", []))
    ensures DecodeLine(Flatten(indent)) == Some(Call(indent, "Flatten", []))
  {
    LineRoundTrip(indent, "ReLU", []);
    LineRoundTrip(indent, "Flatten", []);
  }

  /**
   * `Conv` gives `None` exactly when the padding and the input's shape are
   * available and the input is not 4-dimensional; its line carries the
   * input and output channels, the filter size, `pads[0]` and `strides[0]`.
   */
  lemma ConvEmits(attrs: Attributes, inputs: seq<string>, outputs: seq<string>, vi: ValueInfo, indent: int)
    requires indent >= 0
    ensures Conv(attrs, inputs, outputs, vi, indent).NoCode? <==>
              GetPadding(attrs, inputs, outputs, vi).Some? && inputs != [] && inputs[0] in vi && |vi[inputs[0]]| != 4
    ensures Conv(attrs, inputs, outputs, vi, indent).Code? ==>
              |inputs| >= 2 && inputs[0] in vi && |vi[inputs[0]]| == 4 &&
              attrs.strides.Some? && |attrs.strides.value| == 2 && attrs.kernelShape.Some? &&
              inputs[1] in vi && Drop2(vi[inputs[1]]) == attrs.kernelShape.value &&
              DecodeLine(Conv(attrs, inputs, outputs, vi, indent).text) ==
                Some(Call(indent, "Conv2D", [vi[inputs[0]][1], Dim(vi, outputs, 0, 1).value, Dim(vi, inputs, 1, 2).value,
                                             GetPadding(attrs, inputs, outputs, vi).value[0], attrs.strides.value[0]]))
  {
    var r := Conv(attrs, inputs, outputs, vi, indent);
    if r.Code? {
      LineRoundTrip(indent, "Conv2D", [vi[inputs[0]][1], Dim(vi, outputs, 0, 1).value, Dim(vi, inputs, 1, 2).value,
                                       GetPadding(attrs, inputs, outputs, vi).value[0], attrs.strides.value[0]]);
    }
  }

  /** The pooling lines carry `kernel_shape[0]`, `pads[0]` and `strides[0]`, and need all three. */
  lemma PoolEmits(attrs: Attributes, inputs: seq<string>, outputs: seq<string>, vi: ValueInfo, indent: int)
    requires indent >= 0
    ensures MaxPool(attrs, inputs, outputs, vi, indent).Code? <==> AveragePool(attrs, inputs, outputs, vi, indent).Code?
    ensures MaxPool(attrs, inputs, outputs, vi, indent).Code? <==>
              At(attrs.kernelShape, 0).Some? && At(attrs.strides, 0).Some? &&
              GetPadding(attrs, inputs, outputs, vi).Some? && |GetPadding(attrs, inputs, outputs, vi).value| > 0
    ensures MaxPool(attrs, inputs, outputs, vi, indent).Code? ==>
              var args := [At(attrs.kernelShape, 0).value, GetPadding(attrs, inputs, outputs, vi).value[0], At(attrs.strides, 0).value];
              DecodeLine(MaxPool(attrs, inputs, outputs, vi, indent).text) == Some(Call(indent, "MaxPool2D", args)) &&
              DecodeLine(AveragePool(attrs, inputs, outputs, vi, indent).text) == Some(Call(indent, "AvgPool2D", args))
  {
    if MaxPool(attrs, inputs, outputs, vi, indent).Code? {
      var args := [At(attrs.kernelShape, 0).value, GetPadding(attrs, inputs, outputs, vi).value[0], At(attrs.strides, 0).value];
      LineRoundTrip(indent, "MaxPool2D", args);
      LineRoundTrip(indent, "AvgPool2D", args);
    }
  }

  /** `Gemm`'s line is an `FC` from the input's second dimension to the output's. */
  lemma GemmEmits(inputs: seq<string>, outputs: seq<string>, vi: ValueInfo, indent: int)
    requires indent >= 0
    ensures Gemm(inputs, outputs, vi, indent).Code? <==> Dim(vi, inputs, 0, 1).Some? && Dim(vi, outputs, 0, 1).Some?
    ensures Gemm(inputs, outputs, vi, indent).Code? ==>
              DecodeLine(Gemm(inputs, outputs, vi, indent).text) ==
                Some(Call(indent, "FC", [vi[inputs[0]][1], vi[outputs[0]][1]]))
  {
    if Gemm(inputs, outputs, vi, indent).Code? {
      LineRoundTrip(indent, "FC", [vi[inputs[0]][1], vi[outputs[0]][1]]);
    }
  }
}
