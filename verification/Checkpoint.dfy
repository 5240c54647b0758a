/** Reading a llama2.c checkpoint: a header of seven integers and one flat array of floats. */
module Checkpoint {
  import opened Wrappers
  import opened Bytes

  datatype Config = Config(
    dim: int, hiddenDim: int, nLayers: int, nHeads: int, nKvHeads: int, vocabSizeSigned: int, seqLen: int)
  {
    function VocabSize(): int {
      if vocabSizeSigned < 0 then -vocabSizeSigned else vocabSizeSigned
    }

    predicate SharedWeights() {
      vocabSizeSigned > 0
    }

    predicate Positive() {
      dim > 0 && hiddenDim > 0 && nLayers > 0 && nHeads > 0 && nKvHeads > 0 && VocabSize() > 0 && seqLen > 0
    }

    function NMultiqueries(): Result<int> {
      if nKvHeads <= 0 || nKvHeads >= nHeads then Ok(1)
      else if nHeads % nKvHeads != 0 then Raised
      else Ok(nHeads / nKvHeads)
    }

    /** Grouped-query attention needs the heads to divide evenly; more key-value heads than heads count as equal. */
    predicate HeadsDivide() {
      nKvHeads <= 0 || nKvHeads >= nHeads || nHeads % nKvHeads == 0
    }
  }

  const HEADER_BYTES := 28

  function ConfigOf(header: bytes): Config
    requires |header| == HEADER_BYTES
  {
    Config(I32(header[0..4]), I32(header[4..8]), I32(header[8..12]), I32(header[12..16]),
           I32(header[16..20]), I32(header[20..24]), I32(header[24..28]))
  }

  // -- Tensors and their layout --------------------------------------------------------------

  datatype Tensor<T> = Tensor(shape: seq<nat>, data: seq<T>)

  function Product(shape: seq<nat>): nat {
    if shape == [] then 1 else shape[0] * Product(shape[1..])
  }

  /** A stretch of the float array: a tensor, or values that are passed over. */
  datatype Block = Named(name: string, shape: seq<nat>) | Skipped(count: nat)

  function Size(b: Block): nat {
    match b
    case Named(_, shape) => Product(shape)
    case Skipped(count) => count
  }

  function Total(layout: seq<Block>): nat {
    if layout == [] then 0 else Total(layout[..|layout| - 1]) + Size(layout[|layout| - 1])
  }

  lemma QuotientPositive(a: int, b: int)
    requires 0 < b <= a
    ensures a / b > 0
  {
  }

  function KvRows(c: Config): nat
    requires c.Positive() && c.HeadsDivide()
  {
    var q := c.NMultiqueries().value;
    assert q > 0 by { if c.nKvHeads < c.nHeads { QuotientPositive(c.nHeads, c.nKvHeads); } }
    c.dim / q
  }

  function MulNat(a: nat, b: nat): (r: nat)
    ensures r == a * b
  {
    a * b
  }

  function RopeCount(c: Config): nat
    requires c.Positive()
  {
    MulNat(c.seqLen, c.dim / c.nHeads)
  }

  /** The blocks in file order; `kv` is the number of rows of a key or value matrix. */
  function Layout(c: Config, kv: nat): (layout: seq<Block>)
    requires c.Positive()
    ensures |layout| == if c.SharedWeights() then 12 else 13
  {
    [ Named("token_embd.weight", [c.VocabSize(), c.dim]),
      Named("rms_att", [c.nLayers, c.dim]),
      Named("wq", [c.nLayers, c.dim, c.dim]),
      Named("wk", [c.nLayers, kv, c.dim]),
      Named("wv", [c.nLayers, kv, c.dim]),
      Named("wo", [c.nLayers, c.dim, c.dim]),
      Named("rms_ffn", [c.nLayers, c.dim]),
      Named("w1", [c.nLayers, c.hiddenDim, c.dim]),
      Named("w2", [c.nLayers, c.dim, c.hiddenDim]),
      Named("w3", [c.nLayers, c.hiddenDim, c.dim]),
      Named("output_norm.weight", [c.dim]),
      Skipped(RopeCount(c)) ]
    + if c.SharedWeights() then [] else [Named("output.weight", [c.VocabSize(), c.dim])]
  }

  /** The number of floats a configuration calls for, as one formula. */
  function FloatCount(c: Config): int
    requires c.Positive() && c.HeadsDivide()
  {
    var embeddings := if c.SharedWeights() then 1 else 2;
    c.dim * (embeddings * c.VocabSize() + 1
             + c.nLayers * (2 + 2 * c.dim + 2 * KvRows(c) + 3 * c.hiddenDim))
    + c.seqLen * (c.dim / c.nHeads)
  }

  // -- What reading a layout yields ----------------------------------------------------------

  lemma NextBlock(layout: seq<Block>, k: nat)
    requires k < |layout|
    ensures Total(layout[..k + 1]) == Total(layout[..k]) + Size(layout[k])
  {
    assert layout[..k + 1][..k] == layout[..k];
  }

  lemma {:induction false} TotalGrows(layout: seq<Block>, j: nat, k: nat)
    requires j <= k <= |layout|
    ensures Total(layout[..j]) <= Total(layout[..k])
    decreases k - j
  {
    if j < k {
      NextBlock(layout, j);
      TotalGrows(layout, j + 1, k);
    }
  }

  /** The tensors cut from the array by reading a layout from its start. */
  function Cut<T>(values: seq<T>, layout: seq<Block>): map<string, Tensor<T>>
    requires Total(layout) <= |values|
  {
    if layout == [] then map[]
    else
      var front := layout[..|layout| - 1];
      var last := layout[|layout| - 1];
      match last
      case Named(name, shape) => Cut(values, front)[name := Tensor(shape, values[Total(front)..Total(layout)])]
      case Skipped(_) => Cut(values, front)
  }

  predicate NamesDistinct(layout: seq<Block>) {
    forall i, j :: 0 <= i < j < |layout| && layout[i].Named? && layout[j].Named? ==> layout[i].name != layout[j].name
  }

  /** Block `k` of a layout is the stretch between the sizes of the blocks before and after its end. */
  function Stretch<T>(values: seq<T>, layout: seq<Block>, k: nat): (r: seq<T>)
    requires k < |layout| && Total(layout) <= |values|
    ensures |r| == Size(layout[k])
  {
    NextBlock(layout, k);
    TotalGrows(layout, k, k + 1);
    TotalGrows(layout, k + 1, |layout|);
    assert layout[..|layout|] == layout;
    values[Total(layout[..k])..Total(layout[..k + 1])]
  }

  lemma {:induction false} CutHolds<T>(values: seq<T>, layout: seq<Block>, k: nat)
    requires Total(layout) <= |values| && NamesDistinct(layout) && k < |layout| && layout[k].Named?
    ensures layout[k].name in Cut(values, layout)
    ensures Cut(values, layout)[layout[k].name] == Tensor(layout[k].shape, Stretch(values, layout, k))
  {
    var n := |layout| - 1;
    var front := layout[..n];
    if k == n {
      assert layout[..n + 1] == layout;
    } else {
      CutHolds(values, front, k);
      assert front[..k] == layout[..k] && front[..k + 1] == layout[..k + 1];
      assert layout[n].Skipped? || layout[k].name != layout[n].name;
    }
  }

  function Stretches<T>(values: seq<T>, layout: seq<Block>, n: nat): seq<T>
    requires n <= |layout| && Total(layout) <= |values|
  {
    if n == 0 then [] else Stretches(values, layout, n - 1) + Stretch(values, layout, n - 1)
  }

  /** In read order the blocks are the array up to their total: no gap, no overlap. */
  lemma {:induction false} StretchesPartition<T>(values: seq<T>, layout: seq<Block>, n: nat)
    requires n <= |layout| && Total(layout) <= |values|
    ensures Total(layout[..n]) <= |values| && Stretches(values, layout, n) == values[..Total(layout[..n])]
  {
    TotalGrows(layout, n, |layout|);
    assert layout[..|layout|] == layout;
    if n > 0 {
      StretchesPartition(values, layout, n - 1);
      NextBlock(layout, n - 1);
    }
  }

  // -- The closed form -----------------------------------------------------------------------

  lemma Product1(a: nat)
    ensures Product([a]) == a
  {
    assert Product([a]) == a * Product([]);
  }

  lemma Product2(a: nat, b: nat)
    ensures Product([a, b]) == a * b
  {
    assert [a, b][1..] == [b];
    Product1(b);
  }

  lemma Product3(a: nat, b: nat, c: nat)
    ensures Product([a, b, c]) == a * (b * c)
  {
    assert [a, b, c][1..] == [b, c];
    Product2(b, c);
  }

  lemma LayerFloats(l: int, d: int, k: int, h: int)
    ensures d * (l * (2 + 2 * d + 2 * k + 3 * h))
            == l * d + l * (d * d) + l * (k * d) + l * (k * d) + l * (d * d) + l * d
               + l * (h * d) + l * (d * h) + l * (h * d)
  {
    var dd, kd, hd := d * d, k * d, h * d;
    assert d * (2 + 2 * d + 2 * k + 3 * h) == 2 * d + 2 * dd + 2 * kd + 3 * hd;
    assert d * (l * (2 + 2 * d + 2 * k + 3 * h)) == l * (d * (2 + 2 * d + 2 * k + 3 * h));
    assert l * (2 * d + 2 * dd + 2 * kd + 3 * hd) == 2 * (l * d) + 2 * (l * dd) + 2 * (l * kd) + 3 * (l * hd);
    assert d * h == hd;
  }

  /** The sizes of the blocks, in read order. */
  lemma LayoutSizes(c: Config, k: nat)
    requires c.Positive()
    ensures var layout, v, d, h, l := Layout(c, k), c.VocabSize(), c.dim, c.hiddenDim, c.nLayers;
            && Size(layout[0]) == v * d
            && Size(layout[1]) == Size(layout[6]) == l * d
            && Size(layout[2]) == Size(layout[5]) == l * (d * d)
            && Size(layout[3]) == Size(layout[4]) == l * (k * d)
            && Size(layout[7]) == Size(layout[9]) == l * (h * d)
            && Size(layout[8]) == l * (d * h)
            && Size(layout[10]) == d && Size(layout[11]) == RopeCount(c)
            && (!c.SharedWeights() ==> Size(layout[12]) == v * d)
  {
    Product2(c.VocabSize(), c.dim);
    Product2(c.nLayers, c.dim);
    Product3(c.nLayers, c.dim, c.dim);
    Product3(c.nLayers, k, c.dim);
    Product3(c.nLayers, c.hiddenDim, c.dim);
    Product3(c.nLayers, c.dim, c.hiddenDim);
    Product1(c.dim);
  }

  lemma TotalOfTwelve(layout: seq<Block>)
    requires |layout| >= 12
    ensures Total(layout[..12])
            == Size(layout[0]) + Size(layout[1]) + Size(layout[2]) + Size(layout[3]) + Size(layout[4]) + Size(layout[5])
               + Size(layout[6]) + Size(layout[7]) + Size(layout[8]) + Size(layout[9])
               + Size(layout[10]) + Size(layout[11])
  {
    NextBlock(layout, 0);
    NextBlock(layout, 1);
    NextBlock(layout, 2);
    NextBlock(layout, 3);
    NextBlock(layout, 4);
    NextBlock(layout, 5);
    NextBlock(layout, 6);
    NextBlock(layout, 7);
    NextBlock(layout, 8);
    NextBlock(layout, 9);
    NextBlock(layout, 10);
    NextBlock(layout, 11);
  }

  lemma EmbeddingFloats(e: int, v: int, d: int, layers: int)
    ensures d * (e * v + 1 + layers) == e * (v * d) + d + d * layers
  {
    assert d * (e * v) == e * (v * d);
  }

  lemma TotalOfLayout(c: Config)
    requires c.Positive() && c.HeadsDivide()
    ensures Total(Layout(c, KvRows(c))) == FloatCount(c)
  {
    var k := KvRows(c);
    var layout := Layout(c, k);
    LayoutSizes(c, k);
    TotalOfTwelve(layout);
    if c.SharedWeights() {
      assert layout[..12] == layout;
    } else {
      NextBlock(layout, 12);
      assert layout[..13] == layout;
    }
    LayerFloats(c.nLayers, c.dim, k, c.hiddenDim);
    EmbeddingFloats(if c.SharedWeights() then 1 else 2, c.VocabSize(), c.dim,
                    c.nLayers * (2 + 2 * c.dim + 2 * k + 3 * c.hiddenDim));
  }

  // -- Reading -------------------------------------------------------------------------------

  lemma LayoutNamesDistinct(c: Config, kv: nat)
    requires c.Positive()
    ensures NamesDistinct(Layout(c, kv))
  {
    assert "wq"[1] != "wk"[1] && "wq"[1] != "wv"[1] && "wq"[1] != "wo"[1];
    assert "wq"[1] != "w1"[1] && "wq"[1] != "w2"[1] && "wq"[1] != "w3"[1];
    assert "wk"[1] != "wv"[1] && "wk"[1] != "wo"[1] && "wk"[1] != "w1"[1] && "wk"[1] != "w2"[1] && "wk"[1] != "w3"[1];
    assert "wv"[1] != "wo"[1] && "wv"[1] != "w1"[1] && "wv"[1] != "w2"[1] && "wv"[1] != "w3"[1];
    assert "wo"[1] != "w1"[1] && "wo"[1] != "w2"[1] && "wo"[1] != "w3"[1];
    assert "w1"[1] != "w2"[1] && "w1"[1] != "w3"[1] && "w2"[1] != "w3"[1];
    assert "rms_att"[4] != "rms_ffn"[4];
  }

  /** The layout a checkpoint is read by; where the heads do not divide, reading ends before `kv` matters. */
  function LayoutOf(c: Config): seq<Block>
    requires c.Positive()
  {
    Layout(c, if c.HeadsDivide() then KvRows(c) else 0)
  }

  /** All tensors by name, with the output matrix shared or read. */
  ghost predicate IsRaw<T>(raw: map<string, Tensor<T>>, c: Config, values: seq<T>)
    requires c.Positive() && Total(LayoutOf(c)) <= |values|
  {
    var cut := Cut(values, LayoutOf(c));
    if c.SharedWeights() then "token_embd.weight" in cut && raw == cut["output.weight" := cut["token_embd.weight"]]
    else raw == cut
  }

  class Reader<T> {
    const values: seq<T>
    var cursor: nat
    var raw: map<string, Tensor<T>>

    constructor (values: seq<T>)
      ensures this.values == values && cursor == 0 && raw == map[]
    {
      this.values := values;
      cursor := 0;
      raw := map[];
    }

    /** The first `k` blocks of the layout have been read. */
    ghost predicate HasRead(layout: seq<Block>, k: nat)
      reads this
    {
      && k <= |layout| && Total(layout[..k]) <= |values|
      && cursor == Total(layout[..k]) && raw == Cut(values, layout[..k])
    }

    method Take(count: nat) returns (ok: bool, flat: seq<T>)
      requires cursor <= |values|
      modifies `cursor
      ensures ok <==> old(cursor) + count <= |values|
      ensures ok ==> cursor == old(cursor) + count && flat == values[old(cursor)..cursor]
      ensures !ok ==> cursor == old(cursor)
    {
      var end := cursor + count;
      if end > |values| {
        return false, [];
      }
      flat := values[cursor..end];
      cursor := end;
      ok := true;
    }

    method Load(name: string, shape: seq<nat>, ghost layout: seq<Block>, ghost k: nat) returns (ok: bool)
      requires HasRead(layout, k) && k < |layout| && layout[k] == Named(name, shape)
      modifies this
      ensures ok ==> HasRead(layout, k + 1)
      ensures !ok ==> Total(layout) > |values|
    {
      NextBlock(layout, k);
      TotalGrows(layout, k + 1, |layout|);
      assert layout[..|layout|] == layout;
      assert layout[..k + 1][..k] == layout[..k];
      var flat;
      ok, flat := Take(Product(shape));
      if ok {
        raw := raw[name := Tensor(shape, flat)];
      }
    }

    method Skip(count: nat, ghost layout: seq<Block>, ghost k: nat) returns (ok: bool)
      requires HasRead(layout, k) && k < |layout| && layout[k] == Skipped(count)
      modifies this
      ensures ok ==> HasRead(layout, k + 1)
      ensures !ok ==> Total(layout) > |values|
    {
      NextBlock(layout, k);
      TotalGrows(layout, k + 1, |layout|);
      assert layout[..|layout|] == layout;
      assert layout[..k + 1][..k] == layout[..k];
      var flat;
      ok, flat := Take(count);
    }
  }

  /** The tensors read before the key and value matrices, whose row count may raise. */
  method LoadFirst<T>(reader: Reader<T>, c: Config) returns (ok: bool)
    requires c.Positive() && reader.HasRead(LayoutOf(c), 0)
    modifies reader
    ensures ok ==> reader.HasRead(LayoutOf(c), 3)
    ensures !ok ==> Total(LayoutOf(c)) > |reader.values|
  {
    ghost var layout := LayoutOf(c);
    ok := reader.Load("token_embd.weight", [c.VocabSize(), c.dim], layout, 0);
    if !ok { return; }
    ok := reader.Load("rms_att", [c.nLayers, c.dim], layout, 1);
    if !ok { return; }
    ok := reader.Load("wq", [c.nLayers, c.dim, c.dim], layout, 2);
  }

  method LoadAttention<T>(reader: Reader<T>, c: Config) returns (ok: bool)
    requires c.Positive() && c.HeadsDivide() && reader.HasRead(LayoutOf(c), 3)
    modifies reader
    ensures ok ==> reader.HasRead(LayoutOf(c), 7)
    ensures !ok ==> Total(LayoutOf(c)) > |reader.values|
  {
    ghost var layout := LayoutOf(c);
    var kvRows: nat := KvRows(c);
    ok := reader.Load("wk", [c.nLayers, kvRows, c.dim], layout, 3);
    if !ok { return; }
    ok := reader.Load("wv", [c.nLayers, kvRows, c.dim], layout, 4);
    if !ok { return; }
    ok := reader.Load("wo", [c.nLayers, c.dim, c.dim], layout, 5);
    if !ok { return; }
    ok := reader.Load("rms_ffn", [c.nLayers, c.dim], layout, 6);
  }

  method LoadFeedForward<T>(reader: Reader<T>, c: Config) returns (ok: bool)
    requires c.Positive() && reader.HasRead(LayoutOf(c), 7)
    modifies reader
    ensures ok ==> reader.HasRead(LayoutOf(c), 12)
    ensures !ok ==> Total(LayoutOf(c)) > |reader.values|
  {
    ghost var layout := LayoutOf(c);
    ok := reader.Load("w1", [c.nLayers, c.hiddenDim, c.dim], layout, 7);
    if !ok { return; }
    ok := reader.Load("w2", [c.nLayers, c.dim, c.hiddenDim], layout, 8);
    if !ok { return; }
    ok := reader.Load("w3", [c.nLayers, c.hiddenDim, c.dim], layout, 9);
    if !ok { return; }
    ok := reader.Load("output_norm.weight", [c.dim], layout, 10);
    if !ok { return; }
    ok := reader.Skip(RopeCount(c), layout, 11);
  }

  /** Shares the embeddings as the output matrix, or reads the matrix that follows. */
  method LoadOutput<T>(reader: Reader<T>, c: Config) returns (ok: bool)
    requires c.Positive() && reader.HasRead(LayoutOf(c), 12)
    modifies reader
    ensures ok ==> reader.cursor == Total(LayoutOf(c)) <= |reader.values| && IsRaw(reader.raw, c, reader.values)
    ensures !ok ==> Total(LayoutOf(c)) > |reader.values|
  {
    ghost var layout := LayoutOf(c);
    if c.SharedWeights() {
      assert layout[..12] == layout;
      LayoutNamesDistinct(c, if c.HeadsDivide() then KvRows(c) else 0);
      CutHolds(reader.values, layout, 0);
      reader.raw := reader.raw["output.weight" := reader.raw["token_embd.weight"]];
      ok := true;
    } else {
      assert layout[..13] == layout;
      ok := reader.Load("output.weight", [c.VocabSize(), c.dim], layout, 12);
    }
  }

  method LoadCheckpoint<T>(header: bytes, values: seq<T>) returns (r: Result<(Config, map<string, Tensor<T>>)>)
    ensures r.Ok? <==>
      && |header| == HEADER_BYTES
      && var c := ConfigOf(header);
         c.Positive() && c.HeadsDivide() && |values| == FloatCount(c)
    ensures r.Ok? ==>
      && r.value.0 == ConfigOf(header)
      && Total(LayoutOf(r.value.0)) == |values|
      && IsRaw(r.value.1, r.value.0, values)
  {
    if |header| != HEADER_BYTES {
      return Raised;
    }
    var c := ConfigOf(header);
    if !c.Positive() {
      return Raised;
    }
    if c.HeadsDivide() {
      TotalOfLayout(c);
    }
    var reader := new Reader(values);
    var ok := LoadFirst(reader, c);
    if !ok || c.NMultiqueries().Raised? {
      return Raised;
    }
    ok := LoadAttention(reader, c);
    if !ok {
      return Raised;
    }
    ok := LoadFeedForward(reader, c);
    if !ok {
      return Raised;
    }
    ok := LoadOutput(reader, c);
    if !ok || reader.cursor != |values| {
      return Raised;
    }
    return Ok((c, reader.raw));
  }

  lemma NoOutputBlock(c: Config, k: nat)
    requires c.Positive() && c.SharedWeights() && k < |LayoutOf(c)| && LayoutOf(c)[k].Named?
    ensures LayoutOf(c)[k].name != "output.weight"
  {
    assert "output.weight"[6] == '.' && "output_norm.weight"[6] == '_';
  }

  lemma TensorIsStretch<T>(raw: map<string, Tensor<T>>, c: Config, values: seq<T>, k: nat)
    requires c.Positive() && Total(LayoutOf(c)) == |values| && IsRaw(raw, c, values)
    requires k < |LayoutOf(c)| && LayoutOf(c)[k].Named?
    ensures LayoutOf(c)[k].name in raw
    ensures raw[LayoutOf(c)[k].name] == Tensor(LayoutOf(c)[k].shape, Stretch(values, LayoutOf(c), k))
  {
    LayoutNamesDistinct(c, if c.HeadsDivide() then KvRows(c) else 0);
    CutHolds(values, LayoutOf(c), k);
    if c.SharedWeights() {
      NoOutputBlock(c, k);
    }
  }

  lemma OutputTensor<T>(raw: map<string, Tensor<T>>, c: Config, values: seq<T>)
    requires c.Positive() && Total(LayoutOf(c)) == |values| && IsRaw(raw, c, values)
    ensures "output.weight" in raw && "token_embd.weight" in raw
    ensures c.SharedWeights() ==> raw["output.weight"] == raw["token_embd.weight"]
  {
    assert LayoutOf(c)[0].name == "token_embd.weight";
    TensorIsStretch(raw, c, values, 0);
    if !c.SharedWeights() {
      assert LayoutOf(c)[12].name == "output.weight";
      TensorIsStretch(raw, c, values, 12);
    }
  }

  /** An accepted checkpoint's tensors, with the values passed over, are the input array in order; every tensor is
      the stretch its place in the layout says it is. */
  lemma TensorsPartitionTheInput<T>(raw: map<string, Tensor<T>>, c: Config, values: seq<T>)
    requires c.Positive() && Total(LayoutOf(c)) == |values| && IsRaw(raw, c, values)
    ensures Stretches(values, LayoutOf(c), |LayoutOf(c)|) == values
    ensures forall k :: 0 <= k < |LayoutOf(c)| && LayoutOf(c)[k].Named? ==>
      && LayoutOf(c)[k].name in raw
      && raw[LayoutOf(c)[k].name] == Tensor(LayoutOf(c)[k].shape, Stretch(values, LayoutOf(c), k))
  {
    hide LayoutOf, Total, Stretch;
    var layout := LayoutOf(c);
    StretchesPartition(values, layout, |layout|);
    assert layout[..|layout|] == layout;
    forall k | 0 <= k < |layout| && layout[k].Named?
      ensures layout[k].name in raw && raw[layout[k].name] == Tensor(layout[k].shape, Stretch(values, layout, k))
    {
      TensorIsStretch(raw, c, values, k);
    }
  }
}
