/**
 * Model of the BERT dataset dumper: tokenisation of a sentence (pair) into
 * [CLS] a [SEP] (b [SEP]) with aligned segment ids, the max_len truncation,
 * and the serialisation of vectors and matrices, element by element in
 * row-major order, into the one output file held in the global `f`.
 * The tokenizer, the vocabulary lookup and the float embedding sum are
 * parameters; a written element is one 4-byte record of type T.
 */
module BertDatasetDumper {
  import opened Wrappers
  import opened Text

  type Token = string

  /** The word-piece tokenizer, kept abstract. */
  type Tokenizer = string -> seq<Token>

  /** convert_tokens_to_ids, applied to one token. */
  type Vocabulary = Token -> int

  const Cls: Token := "[CLS]"
  const Sep: Token := "[SEP]"

  /** The truncation length of main. */
  const MaxLen: nat := 512

  datatype Encoding = Encoding(tokens: seq<Token>, inputIds: seq<int>, segmentIds: seq<int>)

  /** Python truthiness of the optional second text: None and "" are both false. */
  predicate Truthy(textB: Option<string>) { textB.Some? && textB.value != "" }

  function Repeat(v: int, n: nat): (s: seq<int>)
    ensures |s| == n && forall i :: 0 <= i < n ==> s[i] == v
  {
    seq(n, _ => v)
  }

  function Ids(vocab: Vocabulary, tokens: seq<Token>): (ids: seq<int>)
    ensures |ids| == |tokens| && forall i :: 0 <= i < |tokens| ==> ids[i] == vocab(tokens[i])
  {
    seq(|tokens|, i requires 0 <= i < |tokens| => vocab(tokens[i]))
  }

  /** tokenize(tokenizer, text_a, text_b) */
  function Tokenize(tok: Tokenizer, vocab: Vocabulary, textA: string, textB: Option<string>): (e: Encoding)
    ensures |e.inputIds| == |e.tokens| == |e.segmentIds|
  {
    var tokensA := [Cls] + tok(textA) + [Sep];
    var tokensB := if Truthy(textB) then tok(textB.value) + [Sep] else [];
    var tokens := tokensA + tokensB;
    Encoding(tokens, Ids(vocab, tokens), Repeat(0, |tokensA|) + Repeat(1, |tokensB|))
  }

  /** The token sequence is [CLS] a [SEP], followed by b [SEP] only for a truthy second text. */
  lemma TokenizeLayout(tok: Tokenizer, vocab: Vocabulary, textA: string, textB: Option<string>)
    ensures var e, n := Tokenize(tok, vocab, textA, textB), |tok(textA)|;
      |e.tokens| >= n + 2 &&
      e.tokens[0] == Cls && e.tokens[1..n + 1] == tok(textA) && e.tokens[n + 1] == Sep &&
      (Truthy(textB) ==> e.tokens[n + 2..] == tok(textB.value) + [Sep]) &&
      (!Truthy(textB) ==> |e.tokens| == n + 2)
  {
    var e, n := Tokenize(tok, vocab, textA, textB), |tok(textA)|;
    assert e.tokens[..n + 2] == [Cls] + tok(textA) + [Sep];
    assert e.tokens[1..n + 1] == ([Cls] + tok(textA) + [Sep])[1..n + 1];
  }

  /** Every token has its id and a segment id: 0 over [CLS] a [SEP], 1 over the rest. */
  lemma SegmentsAligned(tok: Tokenizer, vocab: Vocabulary, textA: string, textB: Option<string>)
    ensures var e, n := Tokenize(tok, vocab, textA, textB), |tok(textA)|;
      forall i :: 0 <= i < |e.tokens| ==>
        e.inputIds[i] == vocab(e.tokens[i]) &&
        e.segmentIds[i] == (if i < n + 2 then 0 else 1)
  {
  }

  /** A single sentence (or an empty second text) has segment id 0 throughout. */
  lemma SingleSentence(tok: Tokenizer, vocab: Vocabulary, textA: string, textB: Option<string>)
    requires !Truthy(textB)
    ensures var e := Tokenize(tok, vocab, textA, textB);
      |e.tokens| == |tok(textA)| + 2 && forall i :: 0 <= i < |e.segmentIds| ==> e.segmentIds[i] == 0
  {
  }

  /** Number of leading zero segment ids. */
  function ZeroRun(s: seq<int>): (k: nat)
    ensures k <= |s|
    ensures forall i :: 0 <= i < k ==> s[i] == 0
    ensures k < |s| ==> s[k] != 0
  {
    if s == [] || s[0] != 0 then 0 else 1 + ZeroRun(s[1..])
  }

  lemma {:induction false} ZeroRunOf(m: nat, p: nat)
    ensures ZeroRun(Repeat(0, m) + Repeat(1, p)) == m
  {
    if m > 0 {
      assert (Repeat(0, m) + Repeat(1, p))[1..] == Repeat(0, m - 1) + Repeat(1, p);
      ZeroRunOf(m - 1, p);
    } else {
      assert Repeat(0, m) + Repeat(1, p) == Repeat(1, p);
    }
  }

  /**
   * Reads an encoding back: the zero-segment span without its [CLS] and [SEP]
   * is the first text's tokens, the rest without its final [SEP] the second's.
   */
  function Split(e: Encoding): Option<(seq<Token>, Option<seq<Token>>)>
  {
    var k := ZeroRun(e.segmentIds);
    if k < 2 || k > |e.tokens| || e.tokens[0] != Cls || e.tokens[k - 1] != Sep then None
    else if k == |e.tokens| then Some((e.tokens[1..k - 1], None))
    else if e.tokens[|e.tokens| - 1] != Sep then None
    else Some((e.tokens[1..k - 1], Some(e.tokens[k..|e.tokens| - 1])))
  }

  /** Tokenize loses nothing: splitting its encoding gives back both tokenised texts. */
  lemma SplitTokenize(tok: Tokenizer, vocab: Vocabulary, textA: string, textB: Option<string>)
    ensures Split(Tokenize(tok, vocab, textA, textB)) ==
            Some((tok(textA), if Truthy(textB) then Some(tok(textB.value)) else None))
  {
    var e, a := Tokenize(tok, vocab, textA, textB), tok(textA);
    var tokensA := [Cls] + a + [Sep];
    var tokensB := if Truthy(textB) then tok(textB.value) + [Sep] else [];
    var k := |tokensA|;
    assert e.tokens == tokensA + tokensB;
    ZeroRunOf(k, |tokensB|);
    assert ZeroRun(e.segmentIds) == k;
    assert e.tokens[..k] == tokensA;
    assert tokensA[1..k - 1] == a;
    assert e.tokens[1..k - 1] == a;
    if Truthy(textB) {
      assert e.tokens[k..] == tokensB;
      assert tokensB[..|tokensB| - 1] == tok(textB.value);
      assert e.tokens[k..|e.tokens| - 1] == tok(textB.value);
    }
  }

  /** Python slicing s[:n]. */
  function Take<X>(s: seq<X>, n: nat): (r: seq<X>)
    ensures |r| == if n < |s| then n else |s|
    ensures r == s[..|r|]
  {
    if n < |s| then s[..n] else s
  }

  /** input_ids[:max_len], segment_ids[:max_len] */
  function Truncate(e: Encoding): (seq<int>, seq<int>)
  {
    (Take(e.inputIds, MaxLen), Take(e.segmentIds, MaxLen))
  }

  /** The ids and segment ids of one sentence as main dumps them. */
  function Prepare(tok: Tokenizer, vocab: Vocabulary, text: string): (seq<int>, seq<int>)
  {
    Truncate(Tokenize(tok, vocab, text, None))
  }

  /**
   * Truncation keeps the ids and segment ids aligned and at most max_len long
   * (so every position index range(len(input_ids)) is below max_len), keeps a
   * prefix of both, and changes nothing when the encoding already fits.
   */
  lemma TruncateAligned(tok: Tokenizer, vocab: Vocabulary, textA: string, textB: Option<string>)
    ensures var e := Tokenize(tok, vocab, textA, textB);
      var (ids, segs) := Truncate(e);
      |ids| == |segs| <= MaxLen &&
      ids == e.inputIds[..|ids|] && segs == e.segmentIds[..|ids|] &&
      (|e.tokens| <= MaxLen ==> ids == e.inputIds && segs == e.segmentIds) &&
      (|e.tokens| > MaxLen ==> |ids| == MaxLen)
  {
  }

  /**
   * A sentence of max_len - 1 or more word pieces loses its closing [SEP]:
   * the last id kept is that of a word piece.
   */
  lemma LongSentenceLosesSep(tok: Tokenizer, vocab: Vocabulary, text: string)
    requires |tok(text)| >= MaxLen - 1
    ensures var (ids, segs) := Prepare(tok, vocab, text);
      |ids| == MaxLen && ids[MaxLen - 1] == vocab(tok(text)[MaxLen - 2]) &&
      forall i :: 0 <= i < |segs| ==> segs[i] == 0
  {
    var e := Tokenize(tok, vocab, text, None);
    assert e.tokens[MaxLen - 1] == tok(text)[MaxLen - 2];
  }

  /** A tensor: its shape and its element at each index (x[ci].item(), w[ci][co].item()). */
  datatype Tensor<T> = Tensor(shape: seq<nat>, at: seq<nat> -> T)

  function Row<T>(t: Tensor<T>, ci: nat, cols: nat): (r: seq<T>)
    ensures |r| == cols && forall co :: 0 <= co < cols ==> r[co] == t.at([ci, co])
  {
    seq(cols, co requires 0 <= co < cols => t.at([ci, co]))
  }

  /** The first `rows` rows of a matrix, one after another. */
  function Rows<T>(t: Tensor<T>, rows: nat, cols: nat): (r: seq<T>)
    ensures |r| == rows * cols
  {
    if rows == 0 then [] else Rows(t, rows - 1, cols) + Row(t, rows - 1, cols)
  }

  /** The records dumpvec writes for a vector. */
  function VecRecords<T>(x: Tensor<T>): (r: seq<T>)
    requires |x.shape| == 1
    ensures |r| == x.shape[0] && forall ci :: 0 <= ci < x.shape[0] ==> r[ci] == x.at([ci])
  {
    seq(x.shape[0], ci requires 0 <= ci < x.shape[0] => x.at([ci]))
  }

  /** The records dumpmat writes for a matrix. */
  function MatRecords<T>(w: Tensor<T>): (r: seq<T>)
    requires |w.shape| == 2
  {
    Rows(w, w.shape[0], w.shape[1])
  }

  lemma {:induction false} RowMajor<T>(t: Tensor<T>, rows: nat, cols: nat, ci: nat, co: nat)
    requires ci < rows && co < cols
    ensures ci * cols + co < rows * cols
    ensures Rows(t, rows, cols)[ci * cols + co] == t.at([ci, co])
  {
    if ci == rows - 1 {
      assert |Rows(t, rows - 1, cols)| == ci * cols;
    } else {
      RowMajor(t, rows - 1, cols, ci, co);
      assert (rows - 1) * cols == rows * cols - cols;
    }
  }

  /**
   * dumpmat writes CI*CO records, and the record at position k is the element
   * (k div CO, k mod CO): the file is the matrix in row-major order.
   */
  lemma MatRecordsRowMajor<T>(w: Tensor<T>)
    requires |w.shape| == 2
    ensures |MatRecords(w)| == w.shape[0] * w.shape[1]
    ensures forall k :: 0 <= k < |MatRecords(w)| ==>
      MatRecords(w)[k] == w.at([k / w.shape[1], k % w.shape[1]])
  {
    var rows, cols := w.shape[0], w.shape[1];
    forall k | 0 <= k < rows * cols
      ensures MatRecords(w)[k] == w.at([k / cols, k % cols])
    {
      var ci, co := k / cols, k % cols;
      assert k == ci * cols + co;
      RowMajor(w, rows, cols, ci, co);
    }
  }

  /** main's output file for the i-th sentence. */
  function FileName(i: nat): string
  {
    "datasets/sst2/" + NatToString(i) + ".dat"
  }

  /** Distinct sentences go to distinct files. */
  lemma FileNamesDistinct(i: nat, j: nat)
    ensures FileName(i) == FileName(j) <==> i == j
  {
    if FileName(i) == FileName(j) {
      var a, b := FileName(i), FileName(j);
      assert NatToString(i) == a[14..|a| - 4];
      assert NatToString(j) == b[14..|b| - 4];
      NatToStringValue(i);
      NatToStringValue(j);
    }
  }

  datatype Outcome = Done | Skipped | AssertionError | AttributeError

  /** The embedding x of one prepared sentence; its float arithmetic is kept abstract. */
  type Embedder<T> = (seq<int>, seq<int>) -> Tensor<T>

  function Matrix<T>(tok: Tokenizer, vocab: Vocabulary, embed: Embedder<T>, text: string): Tensor<T>
  {
    var (ids, segs) := Prepare(tok, vocab, text);
    embed(ids, segs)
  }

  predicate IsMatrix<T>(t: Tensor<T>) { |t.shape| == 2 }

  /** The index of the first sentence whose embedding is not a matrix, or the count. */
  function FirstBad<T>(tok: Tokenizer, vocab: Vocabulary, embed: Embedder<T>, sentences: seq<string>): (k: nat)
    ensures k <= |sentences|
    ensures forall j :: 0 <= j < k ==> IsMatrix(Matrix(tok, vocab, embed, sentences[j]))
    ensures k < |sentences| ==> !IsMatrix(Matrix(tok, vocab, embed, sentences[k]))
  {
    if sentences == [] || !IsMatrix(Matrix(tok, vocab, embed, sentences[0])) then 0
    else 1 + FirstBad(tok, vocab, embed, sentences[1..])
  }

  /** The content of the files the first k sentences are dumped to (an empty file for a non-matrix). */
  function Outputs<T>(tok: Tokenizer, vocab: Vocabulary, embed: Embedder<T>, sentences: seq<string>, k: nat): map<string, seq<T>>
    requires k <= |sentences|
  {
    if k == 0 then map[]
    else
      var m := Matrix(tok, vocab, embed, sentences[k - 1]);
      Outputs(tok, vocab, embed, sentences, k - 1)[FileName(k - 1) := if IsMatrix(m) then MatRecords(m) else []]
  }

  /** After k sentences there is one file per sentence, holding that sentence's matrix. */
  lemma {:induction false} OutputsLookup<T>(tok: Tokenizer, vocab: Vocabulary, embed: Embedder<T>, sentences: seq<string>, k: nat, j: nat)
    requires k <= |sentences| && j < k && IsMatrix(Matrix(tok, vocab, embed, sentences[j]))
    ensures FileName(j) in Outputs(tok, vocab, embed, sentences, k)
    ensures Outputs(tok, vocab, embed, sentences, k)[FileName(j)] == MatRecords(Matrix(tok, vocab, embed, sentences[j]))
  {
    if j < k - 1 {
      OutputsLookup(tok, vocab, embed, sentences, k - 1, j);
      FileNamesDistinct(j, k - 1);
    }
  }

  /** Only the sentences' own files are produced. */
  lemma {:induction false} OutputsKeys<T>(tok: Tokenizer, vocab: Vocabulary, embed: Embedder<T>, sentences: seq<string>, k: nat, name: string)
    requires k <= |sentences|
    ensures name in Outputs(tok, vocab, embed, sentences, k) <==> exists j :: 0 <= j < k && name == FileName(j)
  {
    if k > 0 {
      OutputsKeys(tok, vocab, embed, sentences, k - 1, name);
    }
  }

  lemma UpdateTwice<K, V>(m: map<K, V>, k: K, a: V, b: V)
    ensures m[k := a][k := b] == m[k := b]
  {
  }

  lemma MergeUpdate<K, V>(a: map<K, V>, b: map<K, V>, k: K, v: V)
    ensures (a + b)[k := v] == a + b[k := v]
  {
  }

  /** The dumper's state: the global file f and the content of every file it opened. */
  class Dumper<T> {
    /** The name of the open output file, None when no file is open. */
    var f: Option<string>
    /** Each file's content, as its sequence of 4-byte records. */
    var files: map<string, seq<T>>

    ghost predicate Valid()
      reads this
    {
      f.Some? ==> f.value in files
    }

    constructor()
      ensures f == None && files == map[] && Valid()
    {
      f := None;
      files := map[];
    }

    /** set_file: opens the file for writing, truncating it. */
    method SetFile(name: string)
      modifies this
      ensures f == Some(name) && files == old(files)[name := []] && Valid()
    {
      f := Some(name);
      files := files[name := []];
    }

    /** close_file: closing with no file open fails on None.close(). */
    method CloseFile() returns (outcome: Outcome)
      modifies this
      ensures outcome == if old(f).Some? then Done else AttributeError
      ensures f == None && files == old(files) && Valid()
    {
      outcome := if f.Some? then Done else AttributeError;
      f := None;
    }

    /** dumpvec: nothing without a file; a non-vector fails its assert; otherwise each element in order. */
    method DumpVec(x: Tensor<T>) returns (outcome: Outcome)
      requires Valid()
      modifies this
      ensures Valid() && f == old(f)
      ensures old(f).None? ==> outcome == Skipped && files == old(files)
      ensures old(f).Some? && |x.shape| != 1 ==> outcome == AssertionError && files == old(files)
      ensures old(f).Some? && |x.shape| == 1 ==>
        outcome == Done && files == old(files)[f.value := old(files)[f.value] + VecRecords(x)]
    {
      if f.None? {
        return Skipped;
      }
      if |x.shape| != 1 {
        return AssertionError;
      }
      var name := f.value;
      ghost var start := files[name];
      var n := x.shape[0];
      assert start + VecRecords(x)[..0] == start;
      assert files == old(files)[name := start];
      for ci := 0 to n
        invariant f == Some(name)
        invariant files == old(files)[name := start + VecRecords(x)[..ci]]
      {
        ghost var done := start + VecRecords(x)[..ci];
        assert done + [x.at([ci])] == start + VecRecords(x)[..ci + 1];
        files := files[name := files[name] + [x.at([ci])]];
        UpdateTwice(old(files), name, done, done + [x.at([ci])]);
      }
      assert VecRecords(x)[..n] == VecRecords(x);
      outcome := Done;
    }

    /** dumpmat: nothing without a file; a non-matrix fails its assert; otherwise row after row. */
    method DumpMat(w: Tensor<T>) returns (outcome: Outcome)
      requires Valid()
      modifies this
      ensures Valid() && f == old(f)
      ensures old(f).None? ==> outcome == Skipped && files == old(files)
      ensures old(f).Some? && |w.shape| != 2 ==> outcome == AssertionError && files == old(files)
      ensures old(f).Some? && |w.shape| == 2 ==>
        outcome == Done && files == old(files)[f.value := old(files)[f.value] + MatRecords(w)]
    {
      if f.None? {
        return Skipped;
      }
      if |w.shape| != 2 {
        return AssertionError;
      }
      var name := f.value;
      ghost var start := files[name];
      var rows, cols := w.shape[0], w.shape[1];
      assert start + Rows(w, 0, cols) == start;
      assert files == old(files)[name := start];
      for ci := 0 to rows
        invariant f == Some(name)
        invariant files == old(files)[name := start + Rows(w, ci, cols)]
      {
        assert start + Rows(w, ci, cols) + Row(w, ci, cols)[..0] == start + Rows(w, ci, cols);
        for co := 0 to cols
          invariant f == Some(name)
          invariant files == old(files)[name := start + Rows(w, ci, cols) + Row(w, ci, cols)[..co]]
        {
          ghost var done := start + Rows(w, ci, cols) + Row(w, ci, cols)[..co];
          assert done + [w.at([ci, co])] == start + Rows(w, ci, cols) + Row(w, ci, cols)[..co + 1];
          files := files[name := files[name] + [w.at([ci, co])]];
          UpdateTwice(old(files), name, done, done + [w.at([ci, co])]);
        }
        assert start + Rows(w, ci, cols) + Row(w, ci, cols)[..cols] == start + Rows(w, ci + 1, cols);
      }
      outcome := Done;
    }

    /** One iteration of main's loop: set_file, dumpmat, close_file. */
    method DumpOne(name: string, x: Tensor<T>) returns (outcome: Outcome)
      requires Valid()
      modifies this
      ensures Valid()
      ensures IsMatrix(x) ==> outcome == Done && f == None && files == old(files)[name := MatRecords(x)]
      ensures !IsMatrix(x) ==> outcome == AssertionError && f == Some(name) && files == old(files)[name := []]
    {
      SetFile(name);
      outcome := DumpMat(x);
      if outcome == AssertionError {
        return;
      }
      assert [] + MatRecords(x) == MatRecords(x);
      UpdateTwice(old(files), name, [], MatRecords(x));
      outcome := CloseFile();
    }

    /**
     * The sentence loop of main: each sentence is tokenised, truncated,
     * embedded and dumped to its own file, stopping at the first embedding
     * that is not a matrix (its file is then left open and empty).
     */
    method DumpAll(tok: Tokenizer, vocab: Vocabulary, embed: Embedder<T>, sentences: seq<string>) returns (outcome: Outcome)
      requires Valid()
      modifies this
      ensures Valid()
      ensures var k := FirstBad(tok, vocab, embed, sentences);
        if k < |sentences| then
          outcome == AssertionError && f == Some(FileName(k)) &&
          files == old(files) + Outputs(tok, vocab, embed, sentences, k + 1)
        else
          outcome == Done && f == (if sentences == [] then old(f) else None) &&
          files == old(files) + Outputs(tok, vocab, embed, sentences, k)
    {
      var i := 0;
      while i < |sentences|
        invariant 0 <= i <= |sentences| && Valid()
        invariant i <= FirstBad(tok, vocab, embed, sentences)
        invariant files == old(files) + Outputs(tok, vocab, embed, sentences, i)
        invariant f == if i == 0 then old(f) else None
      {
        var x := Matrix(tok, vocab, embed, sentences[i]);
        var o := DumpOne(FileName(i), x);
        MergeUpdate(old(files), Outputs(tok, vocab, embed, sentences, i), FileName(i),
                    if IsMatrix(x) then MatRecords(x) else []);
        if o == AssertionError {
          return AssertionError;
        }
        i := i + 1;
      }
      outcome := Done;
    }
  }

}
