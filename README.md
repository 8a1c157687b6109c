# A Dafny model of the sytorch LLM front end and the Onnx-FzPC emitter

This project models the sequential parts of EzPC's sytorch LLM inference stack. The backend arithmetic (fixed-point tensors, secure two-party computation) is out of scope. What is modelled:

- **The transformer composition graph.** These are the modules of `llm_base.h`, `gpt2.h`, `bert.h`, `gptneo.h` and `llama.h`, plus the duplicate LLaMA classes of `examples/llama7b.cpp`.
  - Each `_forward` builds a symbolic `Graph.Term`. The backend primitives (`matmul`, `softmax_triangular`, `gelu`, LayerNorm, `split`, `view`, `concat`, ...) are uninterpreted constructors.
  - `Graph` gives three independent readings of a term:
    - `ShapeOf`: the tensor shape for an input shape. It is None when a primitive gets operands it cannot take.
    - `Contains`: whether some node satisfies a predicate. The masking and scaling properties use it.
    - `Layers`: the set of weight layers the term uses.
  - The properties are stated over these readings: pre-norm against post-norm residuals, block order, head count and concatenation order, width preservation, masking per attention family, bias flags, and the `n_embd % n_heads` precondition.
  - The module classes keep their `blocks` vector. Constructors and forward passes are methods with loops, proved against the specification functions `Stack` and `Apply`.
- **Ring helpers of `llama7b.cpp`.**
  - `toi64` is modelled over an `array`, with the `u64` wrap-around written out.
  - The argmax loop picks the predicted token.
  - `get_n_seq` turns a byte count into a sequence count.
- **Configuration and the command line.**
  - `ArgMapping` is a class with the fields `map`, `values`, `doc_dict`, `requiredArgs` and `doc`.
  - `parseArgs` is modelled too.
  - `read_config` overlays parsed JSON items onto the globals.
  - The `ModelFactory` registry.
  - `main`: the role-to-required-arguments table, the dispatch, and the action trace of `lt_main`.
- **The Onnx-FzPC C++ emitter.**
  - `get_padding`.
  - The `Relu`, `Conv`, `MaxPool`, `AveragePool`, `Flatten` and `Gemm` emitters, each with a decoder that reads the emitted line back.
  - `prepare_input`, `prepare_output`, `prepare_func`, `cleartext_pre`, `cleartext_post` and `prepare_export`, which append to a `code_list` object.
- **The BERT dataset dumper.**
  - `tokenize`, with the tokenizer and the vocabulary as function parameters.
  - The `max_len` truncation.
  - `set_file`, `close_file`, `dumpvec` and `dumpmat`, over a global file handle modelled as a class.
  - The sentence loop of `main`.

Modules, one per file:

| module | files it models |
|---|---|
| `Wrappers`, `Text` | Option/Result; decimal text, `str(int)`, `", ".join`, `'   ' * indent` |
| `Args` | ArgMapping.h |
| `Graph`, `LLMBase` | terms and shapes; llm_base.h |
| `Gpt2`, `Bert`, `GptNeo`, `Llama` | gpt2.h, bert.h, gptneo.h, llama.h |
| `Llama7b`, `Ring` | llama7b.cpp |
| `LLMLibrary` | llm_library.h |
| `PartyDriver` | main.cpp |
| `CyborgFuncCalls`, `CyborgBackendRep` | cyborg_func_calls.py, cyborgBackendRep.py |
| `BertDatasetDumper` | bertbase_dataset_dumper.py |

Where the specification of the repository and the code disagree, the model follows the code:

- A missing required argument ends the program through `usage`, which exits with status 0, not with a failure status.
- The "same" padding puts `ceil(total / 2)` on both sides of each axis. The ONNX SAME_UPPER/SAME_LOWER rule splits an odd total unevenly instead.
- GPT-Neo's two attention parity branches are identical, so no local-window masking happens.

## Model

| member | source | states |
|---|---|---|
| Text.NatToString | sytorch/LLMs/dataset_scripts/bertbase_dataset_dumper.py:81 | `str(i)` of a natural number is a non-empty digit string with no leading zero unless i is 0 |
| Text.NatToStringValue | sytorch/LLMs/dataset_scripts/bertbase_dataset_dumper.py:81 | reading the digits of `str(i)` back gives i |
| Text.IntToString | Onnx-FzPC/utils/cyborg_func_calls.py:116 | `str(x)` of an integer is non-empty and starts with '-' exactly when x is negative |
| Text.IntToStringRoundTrip | Onnx-FzPC/utils/cyborg_func_calls.py:116 | parsing `str(x)` gives x back, for every integer |
| Text.Spaces | Onnx-FzPC/utils/cyborg_func_calls.py:58 | `'   ' * indent` is 3·indent spaces, and empty for indent ≤ 0 |
| Text.LeadingSpacesOf | Onnx-FzPC/utils/cyborg_func_calls.py:58 | a line built from the indent and a text not starting with a space has exactly 3·indent leading spaces, followed by that text |
| Text.JoinRoundTrip | Onnx-FzPC/utils/cyborg_func_calls.py:115-117 | the comma-separated argument list of an emitted call parses back to the same integers |
| Args.ScanEq | sytorch/include/sytorch/LLMs/ArgMapping.h:36-38 | the scanning loop stops at the first '=' of the token, or at its end when there is none |
| Args.ParseArgs | sytorch/include/sytorch/LLMs/ArgMapping.h:31-47 | the loop from `argv[1]` returns the flag and map of the recursive definition over the tokens |
| Args.ParseArgsOk | sytorch/include/sytorch/LLMs/ArgMapping.h:33-46 | `parseArgs` returns true iff every token has an '=' and names a non-NULL entry |
| Args.ParseArgsValues | sytorch/include/sytorch/LLMs/ArgMapping.h:41-44 | on success the key set is unchanged and each name holds the text after '=' of its last occurrence, or its old value if it does not occur |
| Args.ParseArgsStops | sytorch/include/sytorch/LLMs/ArgMapping.h:39-43 | the first bad token makes the result false, and a NULL-entry name is left in the map as NULL by `operator[]` |
| Args.ArgMapping.constructor | sytorch/include/sytorch/LLMs/ArgMapping.h:83-89 | the implicit default constructor leaves every map and the doc empty |
| Args.ArgMapping.Arg | sytorch/include/sytorch/LLMs/ArgMapping.h:92-101 | requires an unregistered name; registers its processor and variable and sets its required flag, changing nothing else |
| Args.ArgMapping.ArgDoc | sytorch/include/sytorch/LLMs/ArgMapping.h:104-111 | as `Arg`, and also records the doc string and appends the doc line with the default value |
| Args.ArgMapping.ArgInfo | sytorch/include/sytorch/LLMs/ArgMapping.h:115-125 | registers the name as optional and appends the doc line with the info text if given, else only a newline; `doc_dict` is unchanged |
| Args.ArgMapping.SetRequired | sytorch/include/sytorch/LLMs/ArgMapping.h:127-136 | an undefined name exits with status 1 and changes nothing; otherwise only that name's flag changes |
| Args.ArgMapping.Documentation | sytorch/include/sytorch/LLMs/ArgMapping.h:205-238 | the required list holds the flagged names and the optional list the others, both in map iteration order; the text is the two headed sections of doc lines |
| Args.ArgMapping.Usage | sytorch/include/sytorch/LLMs/ArgMapping.h:146-154 | always exits with status 0; the message is the banner, the usage line with the program name, the Required and Optional sections of `documentation()` in iteration order, and the banner again |
| Args.ArgMapping.Parse | sytorch/include/sytorch/LLMs/ArgMapping.h:156-203 | the status is that of the scan-then-check definition over `argv[2..]`; on success the variables hold the scanned values and the processor map is unchanged |
| Args.ScanOk | sytorch/include/sytorch/LLMs/ArgMapping.h:159-177 | the scan passes iff every token has an '=', a registered processor and a value it accepts; then the provided names are exactly the tokens' names |
| Args.ScanValues | sytorch/include/sytorch/LLMs/ArgMapping.h:167-176 | after a passing scan, each variable holds the conversion of its last occurrence's value, or its old value if absent |
| Args.ParseRuns | sytorch/include/sytorch/LLMs/ArgMapping.h:159-202 | `parse` returns iff every token is accepted and every required name was provided; every other path exits with status 0 |
| Args.DocumentationPartition | sytorch/include/sytorch/LLMs/ArgMapping.h:215-221 | every registered name is listed exactly once: under Required iff its flag is set |
| LLMLibrary.Setting | sytorch/include/sytorch/LLMs/llm_library.h:103-153 | a config has a setting for exactly the ten recognised keys, each of the kind that key accepts |
| LLMLibrary.ApplyItemSetting | sytorch/include/sytorch/LLMs/llm_library.h:105-152 | one item changes exactly its key's setting, and only when the key accepts that kind of value |
| LLMLibrary.OverlaySetting | sytorch/include/sytorch/LLMs/llm_library.h:105-153 | after the item loop each key holds its last accepted value, or the value it had before |
| LLMLibrary.SettingsDetermine | sytorch/include/sytorch/LLMs/llm_library.h:20-29 | the ten settings determine the whole configuration |
| LLMLibrary.OverlayIgnores | sytorch/include/sytorch/LLMs/llm_library.h:107-152 | items with unknown keys or values of the wrong kind change nothing |
| LLMLibrary.ReadConfigNoObject | sytorch/include/sytorch/LLMs/llm_library.h:94-103 | an unopenable file or a document that is not an object leaves every global unchanged |
| LLMLibrary.Globals.constructor | sytorch/include/sytorch/LLMs/llm_library.h:20-29 | the initial globals are the documented defaults (50257, 1024, 768, 12, 12, 2, 256, 11008, 12, "BERT") |
| LLMLibrary.Globals.ReadConfig | sytorch/include/sytorch/LLMs/llm_library.h:90-157 | the parser fails iff the file is malformed; otherwise the new globals are the overlay of the file's items onto the old ones |
| LLMLibrary.ModelFactory.constructor | sytorch/include/sytorch/LLMs/llm_library.h:37-78 | the factory table is the eight-entry registry |
| LLMLibrary.ModelFactory.Create | sytorch/include/sytorch/LLMs/llm_library.h:80-87 | null exactly for an unregistered name; aborts exactly when a built attention fails its head check; otherwise builds the registered kind with arguments read from the globals at call time |
| LLMLibrary.RegistryNames | sytorch/include/sytorch/LLMs/llm_library.h:39-77 | the registry holds exactly the eight model names |
| LLMLibrary.RegistryInjective | sytorch/include/sytorch/LLMs/llm_library.h:39-77 | different names build different model kinds |
| LLMLibrary.GetNSeq | sytorch/include/sytorch/LLMs/llm_library.h:159-165 | defined iff the byte count is a multiple of 4·n_embd, and then the result times 4·n_embd is the byte count |
| LLMLibrary.GetNSeqRoundTrip | sytorch/examples/llama7b.cpp:259-264 | the size of n_seq rows of n_embd floats gives n_seq back |
| PartyDriver.AtoiRoundTrip | sytorch/LLMs/main.cpp:155 | `atoi` of a decimal integer's text gives that integer |
| PartyDriver.RequiredRegistered | sytorch/LLMs/main.cpp:177-201 | for every party the required flags mark exactly its required set (DEALER n_seq, key_path; SERVER wt_file, key_path; CLIENT in_file, key_path, ip; party 0 wt_file, in_file), all registered |
| PartyDriver.Register | sytorch/LLMs/main.cpp:166-175 | the nine registrations give the documented types and defaults, with nothing required |
| PartyDriver.RegisterFiles | sytorch/LLMs/main.cpp:167-169 | registers wt_file and in_file with "", key_path with "./" |
| PartyDriver.RegisterNetwork | sytorch/LLMs/main.cpp:170-172 | registers ip "127.0.0.1", n_seq 10, id "0" |
| PartyDriver.RegisterOptions | sytorch/LLMs/main.cpp:173-175 | registers nt 4, no_reveal false, ct_float false |
| PartyDriver.RequireRole | sytorch/LLMs/main.cpp:177-192 | the role branches set exactly the role's flags; party 0's are left for later |
| PartyDriver.RunMain | sytorch/LLMs/main.cpp:137-216 | the outcome is `main`'s decision table; the globals change by `read_config` exactly when there are at least two arguments |
| PartyDriver.ShortCommandLine | sytorch/LLMs/main.cpp:139-153 | `main` prints the short usage without parsing iff there are fewer than two arguments |
| PartyDriver.RunsHaveRequired | sytorch/LLMs/main.cpp:196-214 | a run that reaches dispatch had every argument its party requires, and dispatches on the parsed values |
| PartyDriver.ExitsAreUsage | sytorch/LLMs/main.cpp:203 | every exit taken while parsing has status 0 |
| PartyDriver.DispatchCases | sytorch/LLMs/main.cpp:205-215 | party 0 runs `float_main` iff ct_float is set and `ct_main` otherwise; every other party runs `lt_main` with its own role |
| PartyDriver.LtMainRun | sytorch/LLMs/main.cpp:58-135 | the statements of `lt_main`, with the model from `ModelFactory.Create`, produce the action trace of its definition: they stop at `net->init` on a null model, at the head-check abort, or at the CLIENT's `get_n_seq` assert |
| PartyDriver.TraceMembers | sytorch/LLMs/main.cpp:75-132 | a failed `create` ends the trace after setup with its failure; a failed `get_n_seq` ends it after setup and the model binding; otherwise the trace is preparation, forward, reveal and finalize |
| PartyDriver.PreparationMembers | sytorch/LLMs/main.cpp:67-106 | the preparation consists of setup, the model binding, `n_seq` sourcing, the input tensor, provisioning, party A, client input and party B |
| PartyDriver.WeightsByRole | sytorch/LLMs/main.cpp:92-99 | weights are loaded (SERVER's own file) exactly by a SERVER and zeroed exactly by a DEALER whose model was created |
| PartyDriver.AbortsIff | sytorch/LLMs/main.cpp:75-85 | the run uses a null model iff `llm_version` is unregistered, fails the head check iff it is registered with n_layer > 0 and n_head not dividing n_embd, fails `get_n_seq` iff the model exists and CLIENT's input is not a multiple of 4·n_embd, and is finalized iff none of these holds |
| PartyDriver.InputByRole | sytorch/LLMs/main.cpp:102-105 | only a CLIENT that did not abort loads the input tensor, from its file at the configured scale |
| PartyDriver.InputShape | sytorch/LLMs/main.cpp:81-90 | the input tensor is n_seq × n_embd; CLIENT's n_seq comes from its file and is sent, SERVER's is the received value |
| PartyDriver.RevealByFlag | sytorch/LLMs/main.cpp:116-131 | without no_reveal `outputA` runs and only CLIENT prints; with it `outputShares` runs and only CLIENT or SERVER write the shares file |
| PartyDriver.PreparationQuiet | sytorch/LLMs/main.cpp:67-106 | no forward pass and no output happens during preparation |
| PartyDriver.RevealQuiet | sytorch/LLMs/main.cpp:116-132 | no load and no forward pass happens after the forward pass |
| PartyDriver.ForwardOrder | sytorch/LLMs/main.cpp:110-112 | a run that does not abort has exactly one forward pass, with every load before it and every output after it |
| Ring.U64 | sytorch/examples/llama7b.cpp:29 | an unsigned 64-bit result lies in [0, 2^64) |
| Ring.U64Congruent | sytorch/examples/llama7b.cpp:29 | the unsigned 64-bit result is congruent to the mathematical value modulo 2^64 |
| Ring.AsI64 | sytorch/examples/llama7b.cpp:29 | storing a u64 into an i64 gives a value in the signed range, congruent modulo 2^64 |
| Ring.ToI64 | sytorch/examples/llama7b.cpp:24-31 | the result is a new tensor of the same size, converted element by element |
| Ring.ToI64Closed | sytorch/examples/llama7b.cpp:29 | despite the u64 wrap-around, each element is `(u + 2^(bw-1)) mod 2^bw − 2^(bw-1)` |
| Ring.ToI64Range | sytorch/examples/llama7b.cpp:29 | for 1 ≤ bw ≤ 62 each element lies in [−2^(bw−1), 2^(bw−1)) |
| Ring.ToI64Congruent | sytorch/examples/llama7b.cpp:29 | each element is congruent to its input modulo 2^bw |
| Ring.ToI64Identity | sytorch/examples/llama7b.cpp:29 | inputs below 2^(bw−1) are unchanged |
| Ring.ToI64Negative | sytorch/examples/llama7b.cpp:29 | the u64 encoding of a negative value in range converts back to that value |
| Ring.ArgmaxUnique | sytorch/examples/llama7b.cpp:370-379 | the loop's promise (first maximal index above INT_MIN, else 0) names one index |
| Ring.Argmax | sytorch/examples/llama7b.cpp:370-379 | the loop returns the first index of the maximum (strict `>`), or 0 when no logit exceeds INT_MIN |
| Graph.ConcatUniform | sytorch/include/sytorch/LLMs/llm_base.h:125 | concatenating k matrices of shape r × d gives r × (k·d) |
| LLMBase.FFNPreservesWidth | sytorch/include/sytorch/LLMs/llm_base.h:26-35 | `down(gelu(up x))` goes in → hidden → in with biased FCs, and uses exactly `up` and `down` |
| LLMBase.FFNLlamaPreservesWidth | sytorch/include/sytorch/LLMs/llm_base.h:52-64 | `down(mul(silu(up1 x), up2 x))` goes in → intermediate → in with three bias-free FCs |
| LLMBase.Attention.Forward | sytorch/include/sytorch/LLMs/llm_base.h:96-128 | the head loop pushes the heads in index order, and the result is `c_proj(concat(heads))` |
| LLMBase.RotaryShape | sytorch/include/sytorch/LLMs/llm_base.h:369-373 | the rotary embedding of q or k keeps its shape |
| LLMBase.ScoreShape | sytorch/include/sytorch/LLMs/llm_base.h:115-116 | `q · kᵀ`, plain or triangular, of two r × d slices is r × r |
| LLMBase.HeadOfShape | sytorch/include/sytorch/LLMs/llm_base.h:110-123 | every family's head body maps r × d slices to r × d |
| LLMBase.WeightedShape | sytorch/include/sytorch/LLMs/llm_base.h:117-121 | softmax of an r × r score times an r × d value is r × d |
| LLMBase.HeadOfShapeUndefined | sytorch/include/sytorch/LLMs/llm_base.h:112-121 | a head whose value slice is undefined is undefined |
| LLMBase.HeadOfReads | sytorch/include/sytorch/LLMs/llm_base.h:112-121 | a head reads its q, k and v slices |
| LLMBase.HeadOfAvoids | sytorch/include/sytorch/LLMs/llm_base.h:112-121 | a head adds no masked node for BERT, no plain softmax for the other families, and no scaling for NEO |
| LLMBase.HeadOfPrimitives | sytorch/include/sytorch/LLMs/llm_base.h:116-119 | BERT heads use the plain softmax, the others the triangular one, and all but NEO scale the scores |
| LLMBase.HeadOfLayers | sytorch/include/sytorch/LLMs/llm_base.h:112-121 | a head uses exactly the weight layers of its q, k and v slices and adds none |
| LLMBase.ProjectionShapes | sytorch/include/sytorch/LLMs/llm_base.h:98-102 | q, k and v heads are n_embd wide, whether from the fused split or from three FCs |
| LLMBase.SliceShape | sytorch/include/sytorch/LLMs/llm_base.h:103-105 | slice i of the per-head split is n_embd / n_heads wide when n_heads divides n_embd, and undefined otherwise |
| LLMBase.HeadShape | sytorch/include/sytorch/LLMs/llm_base.h:110-123 | every head result is r × (n_embd / n_heads) |
| LLMBase.AttentionShapeValid | sytorch/include/sytorch/LLMs/llm_base.h:96-128 | with a valid head count, attention maps r × n_embd to r × n_embd |
| LLMBase.HeadsShape | sytorch/include/sytorch/LLMs/llm_base.h:109-123 | there are exactly n_heads > 0 heads, all of the same width |
| LLMBase.AttentionShapeInvalid | sytorch/include/sytorch/LLMs/llm_base.h:91 | when n_heads does not divide n_embd the attention term has no shape |
| LLMBase.AttentionShape | sytorch/include/sytorch/LLMs/llm_base.h:89-128 | attention preserves r × n_embd iff n_heads divides n_embd, and is undefined otherwise |
| LLMBase.HeadsInOrder | sytorch/include/sytorch/LLMs/llm_base.h:109-126 | the output is `c_proj` of the n_heads heads concatenated in index order, and head i uses slice i of q, k and v |
| LLMBase.AttentionAvoids | sytorch/include/sytorch/LLMs/llm_base.h:110-127 | attention adds no node of a kind its family does not use |
| LLMBase.Masking | sytorch/include/sytorch/LLMs/llm_base.h:116-119 | attention is masked (triangular) iff the family is not BERT, and uses the plain softmax iff it is BERT |
| LLMBase.Scaling | sytorch/include/sytorch/LLMs/llm_base.h:257 | attention scales the scores iff the family is not NEO |
| LLMBase.NeoIgnoresAttentionType | sytorch/include/sytorch/LLMs/llm_base.h:278-292 | NEO attention builds the same term for every attention type and window size |
| LLMBase.AttentionLayers | sytorch/include/sytorch/LLMs/llm_base.h:226-229 | attention uses exactly its projections; they have biases for BERT and GPT2, only `c_proj` has one for NEO, none has one for LLAMA |
| LLMBase.SliceLayers | sytorch/include/sytorch/LLMs/llm_base.h:98-102 | BERT and GPT2 slices read the one fused `c_attn`; NEO and LLAMA slices read their own q, k or v FC |
| LLMBase.AttentionPrimitives | sytorch/include/sytorch/LLMs/llm_base.h:116-119 | BERT attention contains the plain softmax, every other family a masked (triangular) operation, and every family but NEO the score scaling |
| Gpt2.BlockPreNorm | sytorch/include/sytorch/LLMs/gpt2.h:17-33 | the block is pre-norm, `y = x + attn(ln0 x)` then `y + ffn(ln1 y)`, with FFN hidden width 4·n_embd |
| Gpt2.ResidualExtends | sytorch/include/sytorch/LLMs/gpt2.h:29-32 | a block keeps its input on the residual path |
| Gpt2.BlockShape | sytorch/include/sytorch/LLMs/gpt2.h:25-34 | the block preserves r × n_embd iff n_heads divides n_embd, and is undefined otherwise |
| Gpt2.BlockUndefined | sytorch/include/sytorch/LLMs/gpt2.h:25-34 | an undefined input gives an undefined output |
| Gpt2.BlockMasking | sytorch/include/sytorch/LLMs/gpt2.h:19 | the block is masked and adds no plain softmax |
| Gpt2.GPT2.constructor | sytorch/include/sytorch/LLMs/gpt2.h:45-52 | `blocks` holds exactly n_layer blocks, block i at index i, and `ln_f` is a LayerNorm of n_embd |
| Gpt2.GPT2.Forward | sytorch/include/sytorch/LLMs/gpt2.h:54-65 | the loop applies the blocks in index order and then `ln_f` |
| Gpt2.NoLayers | sytorch/include/sytorch/LLMs/gpt2.h:56-64 | with n_layer = 0 the model is `ln_f(input)` |
| Gpt2.BlockOrder | sytorch/include/sytorch/LLMs/gpt2.h:58-63 | block k is applied to the output of blocks 0..k−1, and blocks k+1.. follow it |
| Gpt2.ModelPreNorm | sytorch/include/sytorch/LLMs/gpt2.h:54-65 | the model ends with `ln_f`, and the input reaches it along the residual path |
| Gpt2.ModelShape | sytorch/include/sytorch/LLMs/gpt2.h:54-65 | the model preserves r × n_embd when n_heads divides n_embd; with a layer and a bad head count it is undefined |
| Gpt2.StackShape | sytorch/include/sytorch/LLMs/gpt2.h:58-63 | the block stack preserves r × n_embd |
| Gpt2.StackUndefined | sytorch/include/sytorch/LLMs/gpt2.h:58-63 | with at least one layer and a bad head count the stack is undefined |
| Gpt2.ModelMasking | sytorch/include/sytorch/LLMs/gpt2.h:54-65 | GPT2 is masked and uses no plain softmax |
| Gpt2.GPT2SequenceClassification.constructor | sytorch/include/sytorch/LLMs/gpt2.h:77-81 | builds a GPT2 of the given sizes and a bias-free FC n_embd → n_labels |
| Gpt2.GPT2SequenceClassification.Forward | sytorch/include/sytorch/LLMs/gpt2.h:83-89 | returns `view(fc(gpt2 x), −1)` |
| Gpt2.GPT2NextWordLogits.constructor | sytorch/include/sytorch/LLMs/gpt2.h:101-105 | builds a GPT2 of the given sizes and a bias-free FC n_embd → n_vocab |
| Gpt2.GPT2NextWordLogits.Forward | sytorch/include/sytorch/LLMs/gpt2.h:107-113 | returns `view(fc(gpt2 x), −1)` |
| Gpt2.LogitsShape | sytorch/include/sytorch/LLMs/gpt2.h:107-113 | `view(fc(gpt2 x), −1)` of a non-empty r × n_embd input is a vector of the FC's output width |
| Bert.BlockPostNorm | sytorch/include/sytorch/LLMs/bert.h:18-35 | the block is post-norm, `l0 = ln0(attn x + x)` then `ln1(ffn l0 + l0)`, with FFN hidden width 4·n_embd; the input is not on a residual path to the output |
| Bert.BlockShape | sytorch/include/sytorch/LLMs/bert.h:26-35 | the block preserves r × n_embd iff n_heads divides n_embd |
| Bert.BlockUndefined | sytorch/include/sytorch/LLMs/bert.h:26-35 | an undefined input gives an undefined output |
| Bert.BlockMasking | sytorch/include/sytorch/LLMs/bert.h:20 | the block uses the plain softmax and adds no mask |
| Bert.PoolerUndefined | sytorch/include/sytorch/LLMs/bert.h:75-80 | the pooler of an undefined term is undefined |
| Bert.PoolerContains | sytorch/include/sytorch/LLMs/bert.h:75-80 | the pooler (`tanh(pool(unsqueeze(view(x, 0))))`) adds no softmax or mask |
| Bert.BERT.constructor | sytorch/include/sytorch/LLMs/bert.h:53-61 | n_layer blocks in index order, `ln_f`, and a biased n_embd → n_embd pooler FC |
| Bert.BERT.Forward | sytorch/include/sytorch/LLMs/bert.h:63-81 | `ln_f` first, the blocks in index order, then the pooler |
| Bert.NormFirst | sytorch/include/sytorch/LLMs/bert.h:65-66 | the first block reads `ln_f(input)`; with no layers the encoder is `ln_f(input)` |
| Bert.BlockOrder | sytorch/include/sytorch/LLMs/bert.h:68-73 | block k reads the output of blocks 0..k−1 applied to `ln_f(input)` |
| Bert.EncoderShape | sytorch/include/sytorch/LLMs/bert.h:65-73 | the encoder preserves r × n_embd |
| Bert.EncoderUndefined | sytorch/include/sytorch/LLMs/bert.h:65-73 | with a layer and a bad head count the encoder is undefined |
| Bert.ModelShape | sytorch/include/sytorch/LLMs/bert.h:63-81 | BERT maps r × n_embd (r > 0) to the 1 × n_embd pooled row |
| Bert.ModelMasking | sytorch/include/sytorch/LLMs/bert.h:63-81 | BERT uses the plain softmax and no mask |
| Bert.BERTSequenceClassification.constructor | sytorch/include/sytorch/LLMs/bert.h:94-98 | builds a BERT of the given sizes and a biased FC n_embd → n_labels |
| Bert.BERTSequenceClassification.Forward | sytorch/include/sytorch/LLMs/bert.h:100-105 | returns `view(fc(bert x), 0)` |
| Bert.ClassifierShape | sytorch/include/sytorch/LLMs/bert.h:100-105 | the classifier gives a vector of n_labels |
| GptNeo.BlockPreNorm | sytorch/include/sytorch/LLMs/gptneo.h:19-35 | the block is pre-norm with LayerNorms and a 4·n_embd FFN, the same shape as GPT2's |
| GptNeo.ResidualExtends | sytorch/include/sytorch/LLMs/gptneo.h:31-34 | a block keeps its input on the residual path |
| GptNeo.BlockIgnoresAttentionType | sytorch/include/sytorch/LLMs/gptneo.h:19-21 | the block's term does not depend on its attention type or window size |
| GptNeo.BlockShape | sytorch/include/sytorch/LLMs/gptneo.h:27-35 | the block preserves r × n_embd iff n_heads divides n_embd |
| GptNeo.BlockUndefined | sytorch/include/sytorch/LLMs/gptneo.h:27-35 | an undefined input gives an undefined output |
| GptNeo.BlockMasking | sytorch/include/sytorch/LLMs/gptneo.h:21 | the block is masked and adds neither a plain softmax nor a scaling |
| GptNeo.GPTNEO.constructor | sytorch/include/sytorch/LLMs/gptneo.h:49-56 | n_layer blocks, block i built with attention type i |
| GptNeo.GPTNEO.Forward | sytorch/include/sytorch/LLMs/gptneo.h:58-79 | the loop applies the blocks in index order and then `ln_f` |
| GptNeo.BlockOrder | sytorch/include/sytorch/LLMs/gptneo.h:72-77 | block k follows blocks 0..k−1 and has attention type k |
| GptNeo.ModelPreNorm | sytorch/include/sytorch/LLMs/gptneo.h:72-78 | the model ends with `ln_f`, and the input reaches it along the residual path |
| GptNeo.ModelIgnoresAttentionType | sytorch/include/sytorch/LLMs/gptneo.h:51-54 | the stack is the same as with every block's attention type set to 0 |
| GptNeo.StackShape | sytorch/include/sytorch/LLMs/gptneo.h:72-77 | the stack preserves r × n_embd |
| GptNeo.StackUndefined | sytorch/include/sytorch/LLMs/gptneo.h:72-77 | with a layer and a bad head count the stack is undefined |
| GptNeo.ModelShape | sytorch/include/sytorch/LLMs/gptneo.h:58-79 | the model preserves r × n_embd when n_heads divides n_embd, and is undefined otherwise for n_layer > 0 |
| GptNeo.ModelMasking | sytorch/include/sytorch/LLMs/gptneo.h:58-79 | GPT-Neo is masked, with no plain softmax and no scaling |
| GptNeo.StackAvoids | sytorch/include/sytorch/LLMs/gptneo.h:72-77 | the stack adds no node of a kind NEO attention does not use |
| GptNeo.GPTNEONextWordLogits.constructor | sytorch/include/sytorch/LLMs/gptneo.h:93-97 | builds a GPT-Neo of the given sizes and a bias-free FC n_embd → n_vocab |
| GptNeo.GPTNEONextWordLogits.Forward | sytorch/include/sytorch/LLMs/gptneo.h:99-105 | returns `view(fc(gptNEO x), −1)` |
| GptNeo.LogitsShape | sytorch/include/sytorch/LLMs/gptneo.h:99-105 | the logits are a vector of n_vocab |
| Llama.BlockPreNorm | sytorch/include/sytorch/LLMs/llama.h:17-33 | the block is pre-norm with `RMSNorm(n_embd, false)` and `FFN_LLAMA(n_embd, intermediate_size)` |
| Llama.ResidualExtends | sytorch/include/sytorch/LLMs/llama.h:29-32 | a block keeps its input on the residual path |
| Llama.BlockShape | sytorch/include/sytorch/LLMs/llama.h:25-34 | the block preserves r × n_embd iff n_heads divides n_embd |
| Llama.BlockUndefined | sytorch/include/sytorch/LLMs/llama.h:25-34 | an undefined input gives an undefined output |
| Llama.BlockMasking | sytorch/include/sytorch/LLMs/llama.h:19 | the block is masked and adds no plain softmax |
| Llama.LLAMA_MODEL.constructor | sytorch/include/sytorch/LLMs/llama.h:45-52 | n_layer blocks in index order, and `ln_f` is an RMSNorm with the default second argument |
| Llama.LLAMA_MODEL.Forward | sytorch/include/sytorch/LLMs/llama.h:54-75 | the loop applies the blocks in index order and then `ln_f` |
| Llama.BlockOrder | sytorch/include/sytorch/LLMs/llama.h:68-73 | block k follows blocks 0..k−1 |
| Llama.ModelPreNorm | sytorch/include/sytorch/LLMs/llama.h:51-74 | the model ends with the default-argument `ln_f`, and the input reaches it along the residual path |
| Llama.StackShape | sytorch/include/sytorch/LLMs/llama.h:68-73 | the stack preserves r × n_embd |
| Llama.StackUndefined | sytorch/include/sytorch/LLMs/llama.h:68-73 | with a layer and a bad head count the stack is undefined |
| Llama.ModelShape | sytorch/include/sytorch/LLMs/llama.h:54-75 | the model preserves r × n_embd when n_heads divides n_embd, and is undefined otherwise for n_layer > 0 |
| Llama.ModelMasking | sytorch/include/sytorch/LLMs/llama.h:54-75 | LLaMA is masked and uses no plain softmax |
| Llama.LlamaNextWordLogits.constructor | sytorch/include/sytorch/LLMs/llama.h:88-92 | builds the model of the given sizes and a bias-free FC n_embd → n_vocab |
| Llama.LlamaNextWordLogits.Forward | sytorch/include/sytorch/LLMs/llama.h:94-100 | returns `view(fc(llama_model x), −1)` |
| Llama.LogitsShape | sytorch/include/sytorch/LLMs/llama.h:94-100 | the logits are a vector of n_vocab |
| Llama7b.FFNSame | sytorch/examples/llama7b.cpp:46-58 | this file's FFN builds the same term as the library's `FFN_LLAMA` |
| Llama7b.MultiHeadAttention.Forward | sytorch/examples/llama7b.cpp:101-181 | the head loop pushes the rotary heads in index order, then concat and `c_proj` |
| Llama7b.AttentionSame | sytorch/examples/llama7b.cpp:91-181 | this file's attention has the library LLAMA attention's head check and builds its term |
| Llama7b.BlockSame | sytorch/examples/llama7b.cpp:197-214 | this file's block builds the same term as `TransformerBlockLLAMA` |
| Llama7b.LLAMA_MODEL.constructor | sytorch/examples/llama7b.cpp:226-233 | n_layer blocks in index order and the default-argument `ln_f` |
| Llama7b.LLAMA_MODEL.Forward | sytorch/examples/llama7b.cpp:235-256 | the loop applies the blocks in index order, then `ln_f` |
| Llama7b.ModelSame | sytorch/examples/llama7b.cpp:249-255 | the model builds the library `LLAMA_MODEL`'s term for the same sizes |
| Llama7b.LlamaNextWordLogits.constructor | sytorch/examples/llama7b.cpp:277-281 | builds the model and a bias-free FC n_embd → n_vocab |
| Llama7b.LlamaNextWordLogits.Forward | sytorch/examples/llama7b.cpp:283-289 | returns `view(fc(llama_model x), −1)` |
| Llama7b.LogitsSame | sytorch/examples/llama7b.cpp:283-289 | the head builds the library `LlamaNextWordLogits`'s term |
| CyborgFuncCalls.CeilHalf | Onnx-FzPC/utils/cyborg_func_calls.py:40-41 | `ceil(a / 2)` is the r with a ≤ 2r ≤ a + 1 |
| CyborgFuncCalls.CeilHalfUnique | Onnx-FzPC/utils/cyborg_func_calls.py:40-41 | that bound pins r down, so it characterises the ceiling |
| CyborgFuncCalls.ExplicitPadding | Onnx-FzPC/utils/cyborg_func_calls.py:17-45 | with NOTSET or VALID the result is `pads` if present, else [0, 0, 0, 0]; without `auto_pad` it is `pads` |
| CyborgFuncCalls.SymmetricPadding | Onnx-FzPC/utils/cyborg_func_calls.py:24-43 | any other `auto_pad` gives `[pad_h, pad_w, pad_h, pad_w]`, each pad the ceiling of half the missing extent, with both kernel sides from `kernel_shape[0]` |
| CyborgFuncCalls.SamePaddingDefined | Onnx-FzPC/utils/cyborg_func_calls.py:24-39 | the "same" padding is defined iff every attribute and shape it reads exists |
| CyborgFuncCalls.ArgsRoundTrip | Onnx-FzPC/utils/cyborg_func_calls.py:116-117 | the emitted argument list and `),` decode back to the arguments |
| CyborgFuncCalls.NamedRoundTrip | Onnx-FzPC/utils/cyborg_func_calls.py:115-117 | `Layer<mode, scale, backend>(args),` decodes to the layer name and arguments |
| CyborgFuncCalls.LineRoundTrip | Onnx-FzPC/utils/cyborg_func_calls.py:113-119 | an emitted line decodes to its indent, layer and arguments |
| CyborgFuncCalls.FixedLines | Onnx-FzPC/utils/cyborg_func_calls.py:55-59 | `Relu` and `Flatten` emit `new ReLU<...>(),` and `new Flatten<...>(),` after 3·indent spaces |
| CyborgFuncCalls.ConvEmits | Onnx-FzPC/utils/cyborg_func_calls.py:98-119 | `Conv` returns None iff the padding is computed and the input is not 4-D; when it emits, its asserts held and the line decodes to `Conv2D(CI, CO, filter, pads[0], strides[0])` |
| CyborgFuncCalls.PoolEmits | Onnx-FzPC/utils/cyborg_func_calls.py:121-132 | MaxPool and AveragePool emit under the same condition (kernel, stride and padding present), and their lines decode to `MaxPool2D`/`AvgPool2D(kernel_shape[0], pads[0], strides[0])` |
| CyborgFuncCalls.GemmEmits | Onnx-FzPC/utils/cyborg_func_calls.py:216-225 | `Gemm` emits `FC(input dim 1, output dim 1)` iff both shapes have a dimension 1 |
| CyborgBackendRep.NHWCPermutes | Onnx-FzPC/cyborgBackendRep.py:106-111 | the (n, c, h, w) shape is listed as [n, h, w, c], a permutation of it |
| CyborgBackendRep.CodeList.constructor | Onnx-FzPC/cyborgBackendRep.py:132-134 | export starts with empty `code_list` and `input_taken` |
| CyborgBackendRep.CodeList.PrepareInput | Onnx-FzPC/cyborgBackendRep.py:18-40 | only an `Input` node appends its three entries and records its name; a name missing from `var_dict` raises `KeyError` |
| CyborgBackendRep.CodeList.PrepareOutput | Onnx-FzPC/cyborgBackendRep.py:68-87 | only an `Output` node appends its three entries; `input_taken` is unchanged |
| CyborgBackendRep.CodeList.PrepareFunc | Onnx-FzPC/cyborgBackendRep.py:43-65 | an operator node raises (unknown op or the seven-argument call) before appending anything |
| CyborgBackendRep.CodeList.PrepareFuncs | Onnx-FzPC/cyborgBackendRep.py:149-153 | the node loop raises at the first operator node and appends nothing |
| CyborgBackendRep.CodeList.CleartextPre | Onnx-FzPC/cyborgBackendRep.py:90-113 | appends the include/main header; then the image lines for the first node's shape, or fails if that node has no 4-D shape |
| CyborgBackendRep.CodeList.CleartextPost | Onnx-FzPC/cyborgBackendRep.py:116-121 | appends the load, forward and print lines |
| CyborgBackendRep.CheckNodes | Onnx-FzPC/cyborgBackendRep.py:139-141 | the check pass succeeds iff every node passes its check |
| CyborgBackendRep.PrepareExport | Onnx-FzPC/cyborgBackendRep.py:124-163 | the export's lines or error are those of its definition |
| CyborgBackendRep.ChecksFirst | Onnx-FzPC/cyborgBackendRep.py:138-141 | the export fails with the check error iff some node fails its check, before any code is emitted |
| CyborgBackendRep.OperatorsRaise | Onnx-FzPC/cyborgBackendRep.py:148-153 | a checked export succeeds iff the program has no operator node |
| CyborgBackendRep.ExportLayout | Onnx-FzPC/cyborgBackendRep.py:143-160 | a successful export is prefix, `Sequential` open and close, suffix, then `return 0;` and `}`; prefix and suffix are present iff the backend is CLEARTEXT |
| BertDatasetDumper.Ids | sytorch/LLMs/dataset_scripts/bertbase_dataset_dumper.py:17 | token ids are the vocabulary looked up token by token |
| BertDatasetDumper.Tokenize | sytorch/LLMs/dataset_scripts/bertbase_dataset_dumper.py:12-20 | tokens, input ids and segment ids have the same length |
| BertDatasetDumper.TokenizeLayout | sytorch/LLMs/dataset_scripts/bertbase_dataset_dumper.py:13-16 | the tokens are `[CLS] a [SEP]`, followed by `b [SEP]` only when `text_b` is truthy |
| BertDatasetDumper.SegmentsAligned | sytorch/LLMs/dataset_scripts/bertbase_dataset_dumper.py:17-18 | each id is its token's id; each segment id is 0 over the a-part and 1 after it |
| BertDatasetDumper.SingleSentence | sytorch/LLMs/dataset_scripts/bertbase_dataset_dumper.py:14-18 | without a truthy `text_b` all segment ids are 0 |
| BertDatasetDumper.SplitTokenize | sytorch/LLMs/dataset_scripts/bertbase_dataset_dumper.py:12-20 | the two sentences' tokens are recovered from the encoding |
| BertDatasetDumper.Take | sytorch/LLMs/dataset_scripts/bertbase_dataset_dumper.py:78 | a Python slice `s[:n]` is the prefix of length min(n, len(s)) |
| BertDatasetDumper.TruncateAligned | sytorch/LLMs/dataset_scripts/bertbase_dataset_dumper.py:78 | truncation keeps ids and segments equal in length, at most 512, as prefixes; it changes nothing that fits, and cuts longer input to exactly 512 |
| BertDatasetDumper.LongSentenceLosesSep | sytorch/LLMs/dataset_scripts/bertbase_dataset_dumper.py:77-78 | a sentence of 511 or more word pieces is cut to 512 ids whose last is the id of word piece 510, not of `[SEP]`, all in segment 0 |
| BertDatasetDumper.Row | sytorch/LLMs/dataset_scripts/bertbase_dataset_dumper.py:55-56 | the inner loop writes row ci's CO elements in column order |
| BertDatasetDumper.Rows | sytorch/LLMs/dataset_scripts/bertbase_dataset_dumper.py:54-56 | the nested loops write CI·CO elements |
| BertDatasetDumper.VecRecords | sytorch/LLMs/dataset_scripts/bertbase_dataset_dumper.py:41-44 | `dumpvec` writes the CI elements in index order |
| BertDatasetDumper.RowMajor | sytorch/LLMs/dataset_scripts/bertbase_dataset_dumper.py:52-56 | record ci·CO + co is element [ci, co] |
| BertDatasetDumper.MatRecordsRowMajor | sytorch/LLMs/dataset_scripts/bertbase_dataset_dumper.py:51-56 | `dumpmat` writes CI·CO records, record k being element [k / CO, k mod CO] |
| BertDatasetDumper.FileNamesDistinct | sytorch/LLMs/dataset_scripts/bertbase_dataset_dumper.py:81 | two sentences' file names are equal iff their indices are |
| BertDatasetDumper.FirstBad | sytorch/LLMs/dataset_scripts/bertbase_dataset_dumper.py:76-83 | the first sentence whose embedding is not a matrix, or the count if there is none |
| BertDatasetDumper.OutputsLookup | sytorch/LLMs/dataset_scripts/bertbase_dataset_dumper.py:76-85 | after k sentences, file j holds the row-major records of sentence j's matrix |
| BertDatasetDumper.OutputsKeys | sytorch/LLMs/dataset_scripts/bertbase_dataset_dumper.py:81 | after k sentences, the files written are exactly those of indices 0..k−1 |
| BertDatasetDumper.Dumper.constructor | sytorch/LLMs/dataset_scripts/bertbase_dataset_dumper.py:23 | no file is open and none is written |
| BertDatasetDumper.Dumper.SetFile | sytorch/LLMs/dataset_scripts/bertbase_dataset_dumper.py:26-28 | opens (truncates) the named file and makes it current |
| BertDatasetDumper.Dumper.CloseFile | sytorch/LLMs/dataset_scripts/bertbase_dataset_dumper.py:31-34 | closes the current file (`AttributeError` when none is open) and sets `f` to None |
| BertDatasetDumper.Dumper.DumpVec | sytorch/LLMs/dataset_scripts/bertbase_dataset_dumper.py:37-44 | writes nothing when `f` is None; fails the assert on a tensor that is not 1-D; otherwise appends the vector's records |
| BertDatasetDumper.Dumper.DumpMat | sytorch/LLMs/dataset_scripts/bertbase_dataset_dumper.py:47-56 | writes nothing when `f` is None; fails the assert on a tensor that is not 2-D; otherwise appends the row-major records |
| BertDatasetDumper.Dumper.DumpOne | sytorch/LLMs/dataset_scripts/bertbase_dataset_dumper.py:81-83 | one sentence's set, dump and close: the file holds the matrix and no file stays open, or the assert fails with the file open and empty |
| BertDatasetDumper.Dumper.DumpAll | sytorch/LLMs/dataset_scripts/bertbase_dataset_dumper.py:75-85 | the loop writes files 0..k−1 with their matrices and stops at the first non-matrix embedding k, leaving file k open and empty |

## Left out

- Backend primitives are uninterpreted term constructors: `matmul`, `softmax`, `gelu`, `silu`, `tanh`, `sin`/`cos`, `rotate_half`, LayerNorm/RMSNorm, and fixed-point truncation. Their shapes are this model's own reading of `split`/`view`/`concat`, because the backend and layer headers are not part of this model.
- The float `divisor = 1/sqrt(n_embd/n_heads)` is an opaque scalar, and all tensor values are left out.
- The MPC protocol and the network are abstract actions in `lt_main`'s trace. These are `llama->init`, `send_n_seq`/`recv_n_seq`, `initializeInferencePartyA/B`, `outputA`, `outputShares`, `llama::start`/`end` and `finalize`. The values received over the network are parameters.
- Calling `net->init` on the null pointer that `create` returns for an unknown `llm_version` is undefined behaviour in C++. The model records it as the action that ends the run.
- `ct_main` and `float_main` are opaque dispatch targets. Their bodies are backend calls.
- The role constants DEALER, SERVER and CLIENT come from a header that is not part of this model. They are taken to be 1, 2 and 3. The properties only use the fact that they are distinct and non-zero.
- `stringstream` conversion in `doArgProcessing<T>` is a partial function parameter `read`. `std::unordered_map` iteration order is a parameter, constrained to list each key once.
- JSON parsing is left out. `read_config` works on an already-parsed list of items, and a malformed file is modelled as the parser's exception ending the program.
- `std::filesystem::file_size` and `Tensor::load` are left out. The byte count is an input.
- `atoi` overflow is not modelled: `atoi` is modelled over unbounded integers. The `u64` overflow of `4 * n_embd` is left out too.
- The `NDEBUG` build, where `assert(!map[name])` and `get_n_seq`'s assert vanish, is not modelled. The asserts are always on: `Arg` requires an unregistered name, and a failing `get_n_seq` aborts.
- `ArgMapping::note` is not modelled. `main` never calls it.
- Args.ArgMapping.Documentation: the default entries that `operator[]` inserts into `requiredArgs` and `doc_dict` for unlisted names are not modelled. They hold false and "", the values the lookups read.
- Args.ArgMapping.Parse: on the paths that call `usage`, the variables are left unspecified, because `usage` exits the process.
- Diagnostics are left out: the stderr text of `parse`'s missing-argument report, the timing, and the printing.
- The dumper's dataset and checkpoint loading are left out, and so is the `labels.txt` file.
- The `wte[ids] + wpe[...] + wse[segs]` embedding is a parameter `embed`.
- The float32 `struct.pack` records are modelled as elements of an arbitrary type.
- The torch/transformers tokenizer and its vocabulary are function parameters.
- `OnnxNode` checks are a predicate parameter.
- The `utils.backend_helper` helpers (`comment`, `take_input`, `give_output`, `iterate_list`) are left out. Their results are modelled as structured entries rather than text.
- The emitters other than `Relu`, `Conv`, `MaxPool`, `AveragePool`, `Flatten` and `Gemm` are left out. They are reached only through `prepare_func`, which always raises.
- CyborgBackendRep.CodeList.PrepareFunc: successful operator emission is not modelled. `prepare_func` passes seven positional arguments to six-parameter classmethods, so every operator node raises `TypeError`, or `AttributeError` for an unknown op.
- CyborgFuncCalls.CeilHalf: `math.ceil` of a float division is modelled as the exact integer ceiling. Float rounding for totals beyond 2^53 is not modelled.
- The LLaMA rotary caching (`done_rotary`) and the `local_attention_mask` path are commented out in the source and are not modelled.
- These files are not part of this model: Onnx-FzPC/main.py, the TLS and socket utilities (ssl_server.cpp, sender.cpp, send_keys.py, threading_temp.py), and the weight converter bertbase_pthtodat.py.
