/**
 * The ONNX emitter's export driver: `prepare_export` checks every program
 * node, then appends the C++ program to `code_list` line by line, with the
 * cleartext prologue and epilogue only for the CLEARTEXT backend.
 *
 * The text helpers `comment`, `take_input`, `give_output` and
 * `iterate_list` come from a module that is not part of this model: their
 * results are entries that record the helper and its arguments. The
 * node checks of `OnnxNode` are the parameter `check`.
 */
module CyborgBackendRep {
  import opened Wrappers
  import opened Text

  /** A program node: an `Input`, an operator `Node`, or an `Output`. */
  datatype ProgramNode =
    | InputNode(name: string, shape: seq<int>, party: string)
    | OpNode(opType: string, inputs: seq<string>, outputs: seq<string>)
    | OutputNode(name: string, shape: seq<int>, party: string)

  /** `node.shape`, which operator nodes do not have. */
  function ShapeOf(node: ProgramNode): Option<seq<int>>
  {
    if node.OpNode? then None else Some(node.shape)
  }

  /** One `code_list` entry. */
  datatype Entry =
    | Text(s: string)
    | InputComment(name: string, shape: seq<int>, variable: string, indent: int)   // comment("Declaration and Input ...")
    | TakeInput(variable: string, shape: seq<int>, party: string, indent: int)
    | OutputComment(name: string, shape: seq<int>, variable: string, party: string, indent: int)
    | GiveOutput(variable: string, shape: seq<int>, party: string, indent: int)
    | Listed(before: string, items: seq<int>, after: string)                      // before + iterate_list(items) + after

  /** The exception that ends an export. */
  datatype Error = CheckFailed | KeyError | ShapeError | AttributeError | TypeError

  /** The classmethods of `Operator`. */
  const OperatorNames: set<string> := {
    "Relu", "LeakyRelu", "Sigmoid", "Softmax", "Conv", "MaxPool", "Concat", "BatchNormalization",
    "AveragePool", "GlobalAveragePool", "Flatten", "Reshape", "Gemm", "Tanh"}

  /** An NCHW shape listed as [n, h, w, c]. */
  function NHWC(shape: seq<int>): (r: seq<int>)
    requires |shape| == 4
  {
    [shape[0], shape[2], shape[3], shape[1]]
  }

  /** The listing is a reordering of the shape with the channels moved last. */
  lemma NHWCPermutes(shape: seq<int>)
    requires |shape| == 4
    ensures multiset(NHWC(shape)) == multiset(shape)
    ensures NHWC(shape)[0] == shape[0] && NHWC(shape)[3] == shape[1]
    ensures NHWC(shape)[1..3] == shape[2..]
  {
    var n, c, h, w := shape[0], shape[1], shape[2], shape[3];
    assert shape == [n] + [c] + [h, w];
    assert NHWC(shape) == [n] + [h, w] + [c];
  }

  /** The fixed text of the generated program. */
  const IncludeBackend: string := "#include \"backend_cleartxt.cpp\""
  const IncludeHeaders: string := "#include <iostream>\n#include <vector>\n#include \"layers.h\"\n#include \"softmax.h\"\n#include <cmath>\n#include <iomanip>\n\n"
  const MainOpen: string := "int main(int __argc, char **__argv){\n"
  const SeedWeights: string := "prngWeights.SetSeed(osuCrypto::toBlock(time(NULL)));"
  const SeedPrng: string := "prng.SetSeed(osuCrypto::toBlock(time(NULL)));\n"
  const LoadModel: string := "model.load(scale);"
  const ForwardModel: string := "model.forward(image);"
  const PrintActivation: string := "model.activation.print();\n"
  const ReturnZero: string := "      return 0;\n"

  /** The six entries `cleartext_pre` appends before it unpacks the first node's shape. */
  function PreHeader(scale: int, indent: int): seq<Entry>
  {
    [Text(IncludeBackend),
     Text(IncludeHeaders),
     Text(MainOpen),
     Text(Spaces(indent + 1) + "const int scale = " + IntToString(scale) + "\n"),
     Text(Spaces(indent + 1) + SeedWeights),
     Text(Spaces(indent + 1) + SeedPrng)]
  }

  /** The three image entries, for the first node's NCHW shape. */
  function PreImage(shape: seq<int>, scale: int, mode: string, indent: int): seq<Entry>
    requires |shape| == 4
  {
    [Listed(Spaces(indent + 1) + "Tensor4D<" + mode + "> image(", NHWC(shape), ");"),
     Listed(Spaces(indent + 1) + "auto actual_image = input(", NHWC(shape), ");"),
     Text(Spaces(indent + 1) + "image.load(actual_image, " + IntToString(scale) + ");\n")]
  }

  /** `cleartext_post`'s three entries. */
  function Post(indent: int): seq<Entry>
  {
    [Text(Spaces(indent + 1) + LoadModel),
     Text(Spaces(indent + 1) + ForwardModel),
     Text(Spaces(indent + 1) + PrintActivation)]
  }

  function SequentialOpen(mode: string, indent: int): Entry
  {
    Text(Spaces(indent + 1) + "auto model = Sequential<" + mode + ">({")
  }

  function SequentialClose(indent: int): Entry
  {
    Text(Spaces(indent + 1) + "});\n\n")
  }

  const Ending: seq<Entry> := [Text(ReturnZero), Text("}")]

  /** The first node's shape, when the cleartext prologue can unpack it. */
  predicate FirstShapeOk(program: seq<ProgramNode>)
  {
    |program| > 0 && ShapeOf(program[0]).Some? && |ShapeOf(program[0]).value| == 4
  }

  /**
   * `prepare_func`'s failure: a missing classmethod is an AttributeError;
   * an existing one is called with seven positional arguments for its six
   * parameters, a TypeError.
   */
  function OperatorError(opType: string): Error
  {
    if opType in OperatorNames then TypeError else AttributeError
  }

  /** The first operator node of a sequence, if any. */
  function FirstOp(nodes: seq<ProgramNode>): (k: nat)
    ensures k <= |nodes|
    ensures k < |nodes| ==> nodes[k].OpNode?
    ensures forall i :: 0 <= i < k ==> !nodes[i].OpNode?
  {
    if nodes == [] then 0 else if nodes[0].OpNode? then 0 else 1 + FirstOp(nodes[1..])
  }

  /** The first node that fails its check, if any. */
  function FirstFailing(nodes: seq<ProgramNode>, check: ProgramNode -> bool): (k: nat)
    ensures k <= |nodes|
    ensures k < |nodes| ==> !check(nodes[k])
    ensures forall i :: 0 <= i < k ==> check(nodes[i])
  {
    if nodes == [] then 0 else if !check(nodes[0]) then 0 else 1 + FirstFailing(nodes[1..], check)
  }

  /** The entries before the model: the cleartext prologue, or nothing. */
  function Prologue(program: seq<ProgramNode>, mode: string, scale: int, backend: string): seq<Entry>
    requires backend == "CLEARTEXT" ==> FirstShapeOk(program)
  {
    if backend == "CLEARTEXT" then PreHeader(scale, 1) + PreImage(ShapeOf(program[0]).value, scale, mode, 1) else []
  }

  /** The entries after the model: the cleartext epilogue, then the ending. */
  function Epilogue(backend: string): seq<Entry>
  {
    (if backend == "CLEARTEXT" then Post(1) else []) + Ending
  }

  /** What `prepare_export` returns, or the exception it raises. */
  function ExportSpec(program: seq<ProgramNode>, mode: string, scale: int, backend: string,
                      check: ProgramNode -> bool): Result<seq<Entry>, Error>
  {
    if FirstFailing(program, check) < |program| then Failure(CheckFailed)
    else if backend == "CLEARTEXT" && !FirstShapeOk(program) then Failure(ShapeError)
    else if FirstOp(program) < |program| then Failure(OperatorError(program[FirstOp(program)].opType))
    else Success(Prologue(program, mode, scale, backend) + [SequentialOpen(mode, 1), SequentialClose(1)] + Epilogue(backend))
  }

  /** `code_list` and `input_taken`, the two lists the export functions append to. */
  class CodeList {
    var entries: seq<Entry>
    var inputTaken: seq<string>

    constructor ()
      ensures entries == [] && inputTaken == []
    {
      entries := [];
      inputTaken := [];
    }

    /** `prepare_input`: three entries and the recorded name, for an `Input` node only. */
    method PrepareInput(node: ProgramNode, varDict: map<string, string>, indent: int) returns (err: Option<Error>)
      modifies this
      ensures err.Some? <==> node.InputNode? && node.name !in varDict
      ensures err.Some? ==> err.value == KeyError
      ensures node.InputNode? && node.name in varDict ==>
                entries == old(entries) + [InputComment(node.name, node.shape, varDict[node.name], indent + 1),
                                           TakeInput(varDict[node.name], node.shape, node.party, indent + 1),
                                           Text("\n\n")] &&
                inputTaken == old(inputTaken) + [node.name]
      ensures !(node.InputNode? && node.name in varDict) ==> entries == old(entries) && inputTaken == old(inputTaken)
    {
      err := None;
      if node.InputNode? {
        if node.name !in varDict {
          return Some(KeyError);
        }
        entries := entries + [InputComment(node.name, node.shape, varDict[node.name], indent + 1)];
        entries := entries + [TakeInput(varDict[node.name], node.shape, node.party, indent + 1)];
        entries := entries + [Text("\n\n")];
        inputTaken := inputTaken + [node.name];
      }
    }

    /** `prepare_output`: three entries for an `Output` node only. */
    method PrepareOutput(node: ProgramNode, varDict: map<string, string>, indent: int) returns (err: Option<Error>)
      modifies this
      ensures err.Some? <==> node.OutputNode? && node.name !in varDict
      ensures err.Some? ==> err.value == KeyError
      ensures node.OutputNode? && node.name in varDict ==>
                entries == old(entries) + [OutputComment(node.name, node.shape, varDict[node.name], node.party, indent + 1),
                                           GiveOutput(varDict[node.name], node.shape, node.party, indent + 1),
                                           Text("\n\n")]
      ensures !(node.OutputNode? && node.name in varDict) ==> entries == old(entries)
      ensures inputTaken == old(inputTaken)
    {
      err := None;
      if node.OutputNode? {
        if node.name !in varDict {
          return Some(KeyError);
        }
        entries := entries + [OutputComment(node.name, node.shape, varDict[node.name], node.party, indent + 1)];
        entries := entries + [GiveOutput(varDict[node.name], node.shape, node.party, indent + 1)];
        entries := entries + [Text("\n\n")];
      }
    }

    /** `prepare_func`: the operator lookup, then the call that cannot bind its arguments. */
    method PrepareFunc(node: ProgramNode) returns (err: Error)
      requires node.OpNode?
      ensures err == OperatorError(node.opType)
      ensures entries == old(entries) && inputTaken == old(inputTaken)
    {
      if node.opType !in OperatorNames {
        return AttributeError;
      }
      err := TypeError;
    }

    /** The operator loop of `prepare_export`: `prepare_func` on each operator node, in order. */
    method PrepareFuncs(program: seq<ProgramNode>) returns (err: Option<Error>)
      modifies this
      ensures err == if FirstOp(program) < |program| then Some(OperatorError(program[FirstOp(program)].opType)) else None
      ensures entries == old(entries) && inputTaken == old(inputTaken)
    {
      for i := 0 to |program|
        invariant forall j :: 0 <= j < i ==> !program[j].OpNode?
        invariant entries == old(entries) && inputTaken == old(inputTaken)
      {
        if program[i].OpNode? {
          var e := PrepareFunc(program[i]);
          assert FirstOp(program) == i;
          return Some(e);
        }
      }
      assert FirstOp(program) == |program|;
      err := None;
    }

    /** `cleartext_pre`: six entries, then the image entries once the first node's shape unpacks. */
    method CleartextPre(program: seq<ProgramNode>, scale: int, mode: string, indent: int) returns (err: Option<Error>)
      modifies this
      ensures err.Some? <==> !FirstShapeOk(program)
      ensures err.Some? ==> err.value == ShapeError && entries == old(entries) + PreHeader(scale, indent)
      ensures err.None? ==>
                entries == old(entries) + PreHeader(scale, indent) + PreImage(ShapeOf(program[0]).value, scale, mode, indent)
      ensures inputTaken == old(inputTaken)
    {
      entries := entries + [Text(IncludeBackend)];
      entries := entries + [Text(IncludeHeaders)];
      entries := entries + [Text(MainOpen)];
      entries := entries + [Text(Spaces(indent + 1) + "const int scale = " + IntToString(scale) + "\n")];
      entries := entries + [Text(Spaces(indent + 1) + SeedWeights)];
      entries := entries + [Text(Spaces(indent + 1) + SeedPrng)];
      assert entries == old(entries) + PreHeader(scale, indent);
      if !FirstShapeOk(program) {
        return Some(ShapeError);
      }
      var s := ShapeOf(program[0]).value;
      var n, c, h, w := s[0], s[1], s[2], s[3];
      entries := entries + [Listed(Spaces(indent + 1) + "Tensor4D<" + mode + "> image(", [n, h, w, c], ");")];
      entries := entries + [Listed(Spaces(indent + 1) + "auto actual_image = input(", [n, h, w, c], ");")];
      entries := entries + [Text(Spaces(indent + 1) + "image.load(actual_image, " + IntToString(scale) + ");\n")];
      err := None;
    }

    /** `cleartext_post`. */
    method CleartextPost(indent: int)
      modifies this
      ensures entries == old(entries) + Post(indent) && inputTaken == old(inputTaken)
    {
      entries := entries + [Text(Spaces(indent + 1) + LoadModel)];
      entries := entries + [Text(Spaces(indent + 1) + ForwardModel)];
      entries := entries + [Text(Spaces(indent + 1) + PrintActivation)];
    }
  }

  /** The node-check pass of `prepare_export`. */
  method CheckNodes(program: seq<ProgramNode>, check: ProgramNode -> bool) returns (ok: bool)
    ensures ok <==> FirstFailing(program, check) == |program|
  {
    for i := 0 to |program|
      invariant forall j :: 0 <= j < i ==> check(program[j])
    {
      if !check(program[i]) {
        return false;
      }
    }
    return true;
  }

  /** `prepare_export(program, var_dict, value_info, mode, scale, backend)`. */
  method PrepareExport(program: seq<ProgramNode>, mode: string, scale: int, backend: string,
                       check: ProgramNode -> bool) returns (r: Result<seq<Entry>, Error>)
    ensures r == ExportSpec(program, mode, scale, backend, check)
  {
    var codeList := new CodeList();
    var indent := 1;
    var ok := CheckNodes(program, check);
    if !ok {
      return Failure(CheckFailed);
    }
    assert codeList.entries == [];
    if backend == "CLEARTEXT" {
      var err := codeList.CleartextPre(program, scale, mode, indent);
      if err.Some? {
        return Failure(err.value);
      }
      assert codeList.entries == Prologue(program, mode, scale, backend);
    }
    ghost var pre := codeList.entries;
    assert pre == Prologue(program, mode, scale, backend);
    codeList.entries := codeList.entries + [SequentialOpen(mode, indent)];
    var err := codeList.PrepareFuncs(program);
    if err.Some? {
      return Failure(err.value);
    }
    codeList.entries := codeList.entries + [SequentialClose(indent)];
    ghost var body := codeList.entries;
    assert body == pre + [SequentialOpen(mode, indent), SequentialClose(indent)];
    if backend == "CLEARTEXT" {
      codeList.CleartextPost(indent);
    }
    assert codeList.entries == body + (if backend == "CLEARTEXT" then Post(1) else []);
    codeList.entries := codeList.entries + [Text(ReturnZero)];
    codeList.entries := codeList.entries + [Text("}")];
    assert codeList.entries == body + Epilogue(backend);
    r := Success(codeList.entries);
  }

  /** Nothing is emitted unless every node passes its check, whatever the backend. */
  lemma ChecksFirst(program: seq<ProgramNode>, mode: string, scale: int, backend: string, check: ProgramNode -> bool)
    ensures (exists k :: 0 <= k < |program| && !check(program[k])) ==>
              ExportSpec(program, mode, scale, backend, check) == Failure(CheckFailed)
    ensures ExportSpec(program, mode, scale, backend, check) == Failure(CheckFailed) ==>
              exists k :: 0 <= k < |program| && !check(program[k])
  {
  }

  /**
   * Any operator node makes the export raise, once the checks and the
   * cleartext prologue got through: no operator ever reaches the model.
   */
  lemma OperatorsRaise(program: seq<ProgramNode>, mode: string, scale: int, backend: string, check: ProgramNode -> bool)
    requires forall k :: 0 <= k < |program| ==> check(program[k])
    requires backend == "CLEARTEXT" ==> FirstShapeOk(program)
    ensures ExportSpec(program, mode, scale, backend, check).Success? <==> forall k :: 0 <= k < |program| ==> !program[k].OpNode?
    ensures ExportSpec(program, mode, scale, backend, check).Failure? ==>
              ExportSpec(program, mode, scale, backend, check).error in {TypeError, AttributeError}
  {
    assert FirstFailing(program, check) == |program|;
    if FirstOp(program) < |program| {
      assert program[FirstOp(program)].OpNode?;
    }
  }

  /**
   * An exported program opens the `Sequential` model, closes it right
   * after and ends with `return 0;` and `}`; the prologue and epilogue
   * are there exactly for the CLEARTEXT backend.
   */
  lemma ExportLayout(program: seq<ProgramNode>, mode: string, scale: int, backend: string, check: ProgramNode -> bool)
    requires ExportSpec(program, mode, scale, backend, check).Success?
    ensures var code := ExportSpec(program, mode, scale, backend, check).value;
            var p := if backend == "CLEARTEXT" then 9 else 0;
            |code| == p + 2 + (if backend == "CLEARTEXT" then 3 else 0) + 2 &&
            code[p] == SequentialOpen(mode, 1) && code[p + 1] == SequentialClose(1) &&
            code[|code| - 2..] == Ending &&
            (backend == "CLEARTEXT" <==> code[0] == Text(IncludeBackend)) &&
            (backend == "CLEARTEXT" ==>
               code[p + 2..p + 5] == Post(1) &&
               code[..p] == PreHeader(scale, 1) + PreImage(ShapeOf(program[0]).value, scale, mode, 1))
  {
    var code := ExportSpec(program, mode, scale, backend, check).value;
    if backend != "CLEARTEXT" {
      assert code[0] == SequentialOpen(mode, 1);
      assert Spaces(2)[0] == ' ';
      assert code[0].s[0] == ' ';
    }
  }
}
