/** The tensors a converted model holds: three model-wide ones and nine for each layer. */
module TensorEmission {
  import opened Checkpoint
  import opened Decimal

  // -- Layer numbers in names ----------------------------------------------------------------

  lemma {:induction false} DotSplits(a: string, x: string, b: string, y: string)
    requires '.' !in a && '.' !in b && a + "." + x == b + "." + y
    ensures a == b && x == y
  {
    var s, t := a + "." + x, b + "." + y;
    if a == "" || b == "" {
      assert s[0] == t[0];
      assert a == "" && b == "";
      assert s[1..] == x && t[1..] == y;
    } else {
      assert s[0] == a[0] && t[0] == b[0];
      assert s[1..] == a[1..] + "." + x && t[1..] == b[1..] + "." + y;
      DotSplits(a[1..], x, b[1..], y);
      assert a == [a[0]] + a[1..] && b == [b[0]] + b[1..];
    }
  }

  // -- What is emitted -----------------------------------------------------------------------

  type Named<T> = (string, seq<T>)

  const ROLES := 9

  const SOURCES: seq<string> := ["wq", "wk", "wv", "wo", "rms_att", "w1", "w2", "w3", "rms_ffn"]

  const SUFFIXES: seq<string> := [
    "attn_q.weight", "attn_k.weight", "attn_v.weight", "attn_output.weight", "attn_norm.weight",
    "ffn_gate.weight", "ffn_down.weight", "ffn_up.weight", "ffn_norm.weight"]

  function LayerName(layer: nat, role: nat): string
    requires role < ROLES
  {
    "blk." + Dec(layer) + "." + SUFFIXES[role]
  }

  lemma SuffixesDistinct(i: nat, j: nat)
    requires i < j < ROLES
    ensures SUFFIXES[i] != SUFFIXES[j]
  {
    assert "attn_q.weight"[5] == 'q' && "attn_k.weight"[5] == 'k' && "attn_v.weight"[5] == 'v';
    assert "attn_output.weight"[5] == 'o' && "attn_norm.weight"[5] == 'n';
    assert "ffn_gate.weight"[4] == 'g' && "ffn_down.weight"[4] == 'd';
    assert "ffn_up.weight"[4] == 'u' && "ffn_norm.weight"[4] == 'n';
    assert "ffn_gate.weight"[0] == "ffn_down.weight"[0] == "ffn_up.weight"[0] == "ffn_norm.weight"[0] == 'f';
    assert "attn_q.weight"[0] == "attn_k.weight"[0] == "attn_v.weight"[0] == 'a';
    assert "attn_output.weight"[0] == "attn_norm.weight"[0] == 'a';
  }

  lemma NameParts(head: string, a: string, x: string, b: string, y: string)
    requires '.' !in a && '.' !in b && head + a + "." + x == head + b + "." + y
    ensures a == b && x == y
  {
    assert (head + a + "." + x)[|head|..] == a + "." + x;
    assert (head + b + "." + y)[|head|..] == b + "." + y;
    DotSplits(a, x, b, y);
  }

  lemma LayerNamesDistinct(l: nat, i: nat, m: nat, j: nat)
    requires i < ROLES && j < ROLES && LayerName(l, i) == LayerName(m, j)
    ensures l == m && i == j
  {
    NameParts("blk.", Dec(l), SUFFIXES[i], Dec(m), SUFFIXES[j]);
    ValueOfDec(l);
    ValueOfDec(m);
    if i < j {
      SuffixesDistinct(i, j);
    } else if j < i {
      SuffixesDistinct(j, i);
    }
  }

  /** A tensor whose first dimension counts the layers. */
  predicate Stacked<T>(t: Tensor<T>, layers: nat) {
    t.shape != [] && t.shape[0] == layers && |t.data| == Product(t.shape)
  }

  function RowSize<T>(t: Tensor<T>): nat
    requires t.shape != []
  {
    Product(t.shape[1..])
  }

  lemma RowFits(layer: nat, layers: nat, size: nat)
    requires layer < layers
    ensures 0 <= layer * size <= layer * size + size <= layers * size
    ensures (layer + 1) * size == layer * size + size
  {
    assert (layer + 1) * size <= layers * size;
  }

  /** The part of a stacked tensor that belongs to one layer. */
  function Row<T>(t: Tensor<T>, layers: nat, layer: nat): seq<T>
    requires Stacked(t, layers) && layer < layers
  {
    RowFits(layer, layers, RowSize(t));
    t.data[layer * RowSize(t)..layer * RowSize(t) + RowSize(t)]
  }

  /** What emission needs of the tensors it is given. */
  predicate Emittable<T>(raw: map<string, Tensor<T>>, layers: nat) {
    && "token_embd.weight" in raw && "output_norm.weight" in raw && "output.weight" in raw
    && forall role :: 0 <= role < ROLES ==> SOURCES[role] in raw && Stacked(raw[SOURCES[role]], layers)
  }

  function LayerTensors<T>(raw: map<string, Tensor<T>>, layers: nat, layer: nat): seq<Named<T>>
    requires Emittable(raw, layers) && layer < layers
  {
    seq(ROLES, role requires 0 <= role < ROLES => (LayerName(layer, role), Row(raw[SOURCES[role]], layers, layer)))
  }

  function ModelTensors<T>(raw: map<string, Tensor<T>>, layers: nat): seq<Named<T>>
    requires Emittable(raw, layers)
  {
    [("token_embd.weight", raw["token_embd.weight"].data),
     ("output_norm.weight", raw["output_norm.weight"].data),
     ("output.weight", raw["output.weight"].data)]
  }

  /** Everything emitted by the time `n` layers are done. */
  function Emission<T>(raw: map<string, Tensor<T>>, layers: nat, n: nat): seq<Named<T>>
    requires Emittable(raw, layers) && n <= layers
  {
    if n == 0 then ModelTensors(raw, layers) else Emission(raw, layers, n - 1) + LayerTensors(raw, layers, n - 1)
  }

  method EmitLayer<T>(raw: map<string, Tensor<T>>, layers: nat, layer: nat) returns (emitted: seq<Named<T>>)
    requires Emittable(raw, layers) && layer < layers
    ensures emitted == LayerTensors(raw, layers, layer)
  {
    assert SOURCES[0] == "wq" && SOURCES[1] == "wk" && SOURCES[2] == "wv" && SOURCES[3] == "wo";
    assert SOURCES[4] == "rms_att";
    assert SOURCES[5] == "w1" && SOURCES[6] == "w2" && SOURCES[7] == "w3" && SOURCES[8] == "rms_ffn";
    assert SUFFIXES[0] == "attn_q.weight" && SUFFIXES[1] == "attn_k.weight" && SUFFIXES[2] == "attn_v.weight";
    assert SUFFIXES[3] == "attn_output.weight" && SUFFIXES[4] == "attn_norm.weight" && SUFFIXES[5] == "ffn_gate.weight";
    assert SUFFIXES[6] == "ffn_down.weight" && SUFFIXES[7] == "ffn_up.weight" && SUFFIXES[8] == "ffn_norm.weight";
    var prefix := "blk." + Dec(layer) + ".";
    emitted := [
      (prefix + "attn_q.weight", Row(raw["wq"], layers, layer)),
      (prefix + "attn_k.weight", Row(raw["wk"], layers, layer)),
      (prefix + "attn_v.weight", Row(raw["wv"], layers, layer)),
      (prefix + "attn_output.weight", Row(raw["wo"], layers, layer)),
      (prefix + "attn_norm.weight", Row(raw["rms_att"], layers, layer)),
      (prefix + "ffn_gate.weight", Row(raw["w1"], layers, layer)),
      (prefix + "ffn_down.weight", Row(raw["w2"], layers, layer)),
      (prefix + "ffn_up.weight", Row(raw["w3"], layers, layer)),
      (prefix + "ffn_norm.weight", Row(raw["rms_ffn"], layers, layer))];
  }

  method Emit<T>(raw: map<string, Tensor<T>>, layers: nat) returns (tensors: seq<Named<T>>)
    requires Emittable(raw, layers)
    ensures tensors == Emission(raw, layers, layers)
  {
    tensors := [
      ("token_embd.weight", raw["token_embd.weight"].data),
      ("output_norm.weight", raw["output_norm.weight"].data),
      ("output.weight", raw["output.weight"].data)];
    for layer := 0 to layers
      invariant tensors == Emission(raw, layers, layer)
    {
      var emitted := EmitLayer(raw, layers, layer);
      tensors := tensors + emitted;
    }
  }

  // -- Names ---------------------------------------------------------------------------------

  lemma {:induction false} EmissionLength<T>(raw: map<string, Tensor<T>>, layers: nat, n: nat)
    requires Emittable(raw, layers) && n <= layers
    ensures |Emission(raw, layers, n)| == 3 + ROLES * n
    ensures Emission(raw, layers, n)[..3] == ModelTensors(raw, layers)
  {
    if n > 0 {
      EmissionLength(raw, layers, n - 1);
      assert Emission(raw, layers, n)[..3] == Emission(raw, layers, n - 1)[..3];
    }
  }

  lemma {:induction false} EmittedOfLayer<T>(raw: map<string, Tensor<T>>, layers: nat, n: nat, l: nat, i: nat)
    requires Emittable(raw, layers) && l < n <= layers && i < ROLES
    ensures |Emission(raw, layers, n)| == 3 + ROLES * n && 3 + ROLES * l + i < 3 + ROLES * n
    ensures Emission(raw, layers, n)[3 + ROLES * l + i] == LayerTensors(raw, layers, l)[i]
  {
    EmissionLength(raw, layers, n);
    EmissionLength(raw, layers, n - 1);
    if l < n - 1 {
      EmittedOfLayer(raw, layers, n - 1, l, i);
    }
  }

  lemma ModelNamesDistinct(layer: nat, role: nat)
    requires role < ROLES
    ensures "token_embd.weight" != "output_norm.weight" && "token_embd.weight" != "output.weight"
    ensures "output_norm.weight" != "output.weight"
    ensures LayerName(layer, role) !in {"token_embd.weight", "output_norm.weight", "output.weight"}
  {
    assert "token_embd.weight"[0] == 't' && "output_norm.weight"[0] == 'o' && "output.weight"[0] == 'o';
    assert "output_norm.weight"[6] == '_' && "output.weight"[6] == '.';
    assert LayerName(layer, role)[0] == 'b';
  }

  function EmittedName(k: nat): string {
    if k == 0 then "token_embd.weight"
    else if k == 1 then "output_norm.weight"
    else if k == 2 then "output.weight"
    else LayerName((k - 3) / ROLES, (k - 3) % ROLES)
  }

  lemma EmittedUnder<T>(raw: map<string, Tensor<T>>, layers: nat, k: nat)
    requires Emittable(raw, layers) && k < 3 + ROLES * layers
    ensures |Emission(raw, layers, layers)| == 3 + ROLES * layers
    ensures Emission(raw, layers, layers)[k].0 == EmittedName(k)
  {
    var all := Emission(raw, layers, layers);
    EmissionLength(raw, layers, layers);
    if k < 3 {
      assert all[k] == all[..3][k];
    } else {
      var l, i := (k - 3) / ROLES, (k - 3) % ROLES;
      assert k == 3 + ROLES * l + i && l < layers;
      EmittedOfLayer(raw, layers, layers, l, i);
    }
  }

  lemma NamesDiffer(a: nat, b: nat)
    requires a < b
    ensures EmittedName(a) != EmittedName(b)
  {
    if b < 3 {
      ModelNamesDistinct(0, 0);
    } else {
      var m, j := (b - 3) / ROLES, (b - 3) % ROLES;
      if a < 3 {
        ModelNamesDistinct(m, j);
      } else if EmittedName(a) == EmittedName(b) {
        LayerNamesDistinct((a - 3) / ROLES, (a - 3) % ROLES, m, j);
      }
    }
  }

  /** Three names for the model and nine for each layer, all different. */
  lemma EmittedNamesDistinct<T>(raw: map<string, Tensor<T>>, layers: nat, a: nat, b: nat)
    requires Emittable(raw, layers) && a < b < 3 + ROLES * layers
    ensures |Emission(raw, layers, layers)| == 3 + ROLES * layers
    ensures Emission(raw, layers, layers)[a].0 != Emission(raw, layers, layers)[b].0
  {
    EmittedUnder(raw, layers, a);
    EmittedUnder(raw, layers, b);
    NamesDiffer(a, b);
  }

  // -- Conservation --------------------------------------------------------------------------

  /** The sum of a weight over the elements. Weighing by 1 counts them; weighing by an indicator counts the
      occurrences of one value. */
  ghost function Weight<T>(s: seq<T>, f: T -> nat): nat {
    if s == [] then 0 else Weight(s[..|s| - 1], f) + f(s[|s| - 1])
  }

  lemma {:induction false} WeightOfConcat<T>(s: seq<T>, t: seq<T>, f: T -> nat)
    ensures Weight(s + t, f) == Weight(s, f) + Weight(t, f)
  {
    if t == [] {
      assert s + t == s;
    } else {
      WeightOfConcat(s, t[..|t| - 1], f);
      assert (s + t)[..|s + t| - 1] == s + t[..|t| - 1];
    }
  }

  ghost function TotalWeight<T>(tensors: seq<Named<T>>, f: T -> nat): nat {
    if tensors == [] then 0 else TotalWeight(tensors[..|tensors| - 1], f) + Weight(tensors[|tensors| - 1].1, f)
  }

  lemma {:induction false} TotalWeightOfConcat<T>(a: seq<Named<T>>, b: seq<Named<T>>, f: T -> nat)
    ensures TotalWeight(a + b, f) == TotalWeight(a, f) + TotalWeight(b, f)
  {
    if b == [] {
      assert a + b == a;
    } else {
      TotalWeightOfConcat(a, b[..|b| - 1], f);
      assert (a + b)[..|a + b| - 1] == a + b[..|b| - 1];
    }
  }

  function Front<T>(t: Tensor<T>, layers: nat, n: nat): seq<T>
    requires Stacked(t, layers) && n <= layers
  {
    if n == 0 then [] else Front(t, layers, n - 1) + Row(t, layers, n - 1)
  }

  /** The first `n` layers' share of the first `roles` stacked tensors. */
  ghost function ShareWeight<T>(raw: map<string, Tensor<T>>, layers: nat, n: nat, roles: nat, f: T -> nat): nat
    requires Emittable(raw, layers) && n <= layers && roles <= ROLES
  {
    if roles == 0 then 0
    else
      var t := raw[SOURCES[roles - 1]];
      assert Stacked(t, layers);
      ShareWeight(raw, layers, n, roles - 1, f) + Weight(Front(t, layers, n), f)
  }

  lemma {:induction false} FrontIsPrefix<T>(t: Tensor<T>, layers: nat, n: nat)
    requires Stacked(t, layers) && n <= layers
    ensures 0 <= n * RowSize(t) <= |t.data| && Front(t, layers, n) == t.data[..n * RowSize(t)]
  {
    if n > 0 {
      FrontIsPrefix(t, layers, n - 1);
      RowFits(n - 1, layers, RowSize(t));
    }
  }

  lemma FrontGrows<T>(t: Tensor<T>, layers: nat, n: nat, f: T -> nat)
    requires Stacked(t, layers) && n < layers
    ensures Weight(Front(t, layers, n + 1), f) == Weight(Front(t, layers, n), f) + Weight(Row(t, layers, n), f)
  {
    WeightOfConcat(Front(t, layers, n), Row(t, layers, n), f);
  }

  lemma TotalWeightStep<T>(tensors: seq<Named<T>>, k: nat, f: T -> nat)
    requires k < |tensors|
    ensures TotalWeight(tensors[..k + 1], f) == TotalWeight(tensors[..k], f) + Weight(tensors[k].1, f)
  {
    assert tensors[..k + 1][..k] == tensors[..k];
  }

  lemma {:induction false} LayerAddsToShares<T>(raw: map<string, Tensor<T>>, layers: nat, n: nat, roles: nat,
                                                f: T -> nat)
    requires Emittable(raw, layers) && n < layers && roles <= ROLES
    ensures ShareWeight(raw, layers, n + 1, roles, f)
            == ShareWeight(raw, layers, n, roles, f) + TotalWeight(LayerTensors(raw, layers, n)[..roles], f)
  {
    if roles > 0 {
      LayerAddsToShares(raw, layers, n, roles - 1, f);
      var t := raw[SOURCES[roles - 1]];
      assert Stacked(t, layers);
      FrontGrows(t, layers, n, f);
      TotalWeightStep(LayerTensors(raw, layers, n), roles - 1, f);
    }
  }

  lemma {:induction false} NoShares<T>(raw: map<string, Tensor<T>>, layers: nat, roles: nat, f: T -> nat)
    requires Emittable(raw, layers) && roles <= ROLES
    ensures ShareWeight(raw, layers, 0, roles, f) == 0
  {
    if roles > 0 {
      NoShares(raw, layers, roles - 1, f);
    }
  }

  lemma {:induction false} EmissionWeight<T>(raw: map<string, Tensor<T>>, layers: nat, n: nat, f: T -> nat)
    requires Emittable(raw, layers) && n <= layers
    ensures TotalWeight(Emission(raw, layers, n), f)
            == TotalWeight(ModelTensors(raw, layers), f) + ShareWeight(raw, layers, n, ROLES, f)
  {
    if n == 0 {
      NoShares(raw, layers, ROLES, f);
    } else {
      EmissionWeight(raw, layers, n - 1, f);
      var tensors := LayerTensors(raw, layers, n - 1);
      LayerAddsToShares(raw, layers, n - 1, ROLES, f);
      assert tensors[..ROLES] == tensors;
      TotalWeightOfConcat(Emission(raw, layers, n - 1), tensors, f);
    }
  }

  ghost function SourceWeight<T>(raw: map<string, Tensor<T>>, layers: nat, roles: nat, f: T -> nat): nat
    requires Emittable(raw, layers) && roles <= ROLES
  {
    if roles == 0 then 0
    else SourceWeight(raw, layers, roles - 1, f) + Weight(raw[SOURCES[roles - 1]].data, f)
  }

  lemma {:induction false} AllShares<T>(raw: map<string, Tensor<T>>, layers: nat, roles: nat, f: T -> nat)
    requires Emittable(raw, layers) && roles <= ROLES
    ensures ShareWeight(raw, layers, layers, roles, f) == SourceWeight(raw, layers, roles, f)
  {
    if roles > 0 {
      AllShares(raw, layers, roles - 1, f);
      var t := raw[SOURCES[roles - 1]];
      assert Stacked(t, layers);
      FrontIsPrefix(t, layers, layers);
      assert Product(t.shape) == layers * RowSize(t);
      assert t.data[..|t.data|] == t.data;
    }
  }

  // -- Converting an accepted checkpoint -----------------------------------------------------

  ghost predicate Accepted<T>(raw: map<string, Tensor<T>>, c: Config, values: seq<T>) {
    c.Positive() && c.HeadsDivide() && Total(LayoutOf(c)) == |values| && IsRaw(raw, c, values)
  }

  /** Where the layout keeps the tensor of each role. */
  const PLACES: seq<nat> := [2, 3, 4, 5, 1, 7, 8, 9, 6]

  lemma PlaceHolds(c: Config, role: nat)
    requires c.Positive() && c.HeadsDivide() && role < ROLES
    ensures var b := LayoutOf(c)[PLACES[role]];
            b.Named? && b.name == SOURCES[role] && b.shape != [] && b.shape[0] == c.nLayers
  {
  }

  lemma AcceptedSizes<T>(raw: map<string, Tensor<T>>, c: Config, values: seq<T>)
    requires Accepted(raw, c, values)
    ensures |values| == FloatCount(c)
    ensures |Stretch(values, LayoutOf(c), 11)| == RopeCount(c)
    ensures |Stretch(values, LayoutOf(c), 0)| == c.VocabSize() * c.dim
  {
    TotalOfLayout(c);
    LayoutSizes(c, KvRows(c));
  }

  lemma TensorAt<T>(raw: map<string, Tensor<T>>, c: Config, values: seq<T>, k: nat)
    requires Accepted(raw, c, values) && k < |LayoutOf(c)| && LayoutOf(c)[k].Named?
    ensures var b := LayoutOf(c)[k];
            b.name in raw && raw[b.name] == Tensor(b.shape, Stretch(values, LayoutOf(c), k))
            && |raw[b.name].data| == Product(b.shape)
  {
    TensorIsStretch(raw, c, values, k);
  }

  lemma SourcePlace<T>(raw: map<string, Tensor<T>>, c: Config, values: seq<T>, role: nat)
    requires Accepted(raw, c, values) && role < ROLES
    ensures PLACES[role] < |LayoutOf(c)|
    ensures SOURCES[role] in raw && Stacked(raw[SOURCES[role]], c.nLayers)
    ensures raw[SOURCES[role]].data == Stretch(values, LayoutOf(c), PLACES[role])
  {
    PlaceHolds(c, role);
    TensorAt(raw, c, values, PLACES[role]);
  }

  lemma AcceptedIsEmittable<T>(raw: map<string, Tensor<T>>, c: Config, values: seq<T>)
    requires Accepted(raw, c, values)
    ensures Emittable(raw, c.nLayers)
    ensures raw["token_embd.weight"].data == Stretch(values, LayoutOf(c), 0)
    ensures raw["output_norm.weight"].data == Stretch(values, LayoutOf(c), 10)
    ensures raw["output.weight"].data == Stretch(values, LayoutOf(c), if c.SharedWeights() then 0 else 12)
  {
    assert LayoutOf(c)[0].name == "token_embd.weight" && LayoutOf(c)[10].name == "output_norm.weight";
    TensorAt(raw, c, values, 0);
    TensorAt(raw, c, values, 10);
    OutputTensor(raw, c, values);
    if !c.SharedWeights() {
      assert LayoutOf(c)[12].name == "output.weight";
      TensorAt(raw, c, values, 12);
    }
    forall role | 0 <= role < ROLES
      ensures SOURCES[role] in raw && Stacked(raw[SOURCES[role]], c.nLayers)
    {
      SourcePlace(raw, c, values, role);
    }
  }

  ghost function BlockWeight<T>(values: seq<T>, layout: seq<Block>, k: nat, f: T -> nat): nat
    requires k < |layout| && Total(layout) <= |values|
  {
    Weight(Stretch(values, layout, k), f)
  }

  lemma StretchesWeight<T>(values: seq<T>, layout: seq<Block>, k: nat, f: T -> nat)
    requires k < |layout| && Total(layout) <= |values|
    ensures Weight(Stretches(values, layout, k + 1), f)
         == Weight(Stretches(values, layout, k), f) + BlockWeight(values, layout, k, f)
  {
    WeightOfConcat(Stretches(values, layout, k), Stretch(values, layout, k), f);
  }

  lemma TwelveStretches<T>(values: seq<T>, layout: seq<Block>, f: T -> nat)
    requires |layout| >= 12 && Total(layout) <= |values|
    ensures Weight(Stretches(values, layout, 12), f)
            == BlockWeight(values, layout, 0, f) + BlockWeight(values, layout, 1, f) + BlockWeight(values, layout, 2, f)
               + BlockWeight(values, layout, 3, f) + BlockWeight(values, layout, 4, f)
               + BlockWeight(values, layout, 5, f)
               + BlockWeight(values, layout, 6, f) + BlockWeight(values, layout, 7, f)
               + BlockWeight(values, layout, 8, f)
               + BlockWeight(values, layout, 9, f) + BlockWeight(values, layout, 10, f)
               + BlockWeight(values, layout, 11, f)
  {
    StretchesWeight(values, layout, 0, f);
    StretchesWeight(values, layout, 1, f);
    StretchesWeight(values, layout, 2, f);
    StretchesWeight(values, layout, 3, f);
    StretchesWeight(values, layout, 4, f);
    StretchesWeight(values, layout, 5, f);
    StretchesWeight(values, layout, 6, f);
    StretchesWeight(values, layout, 7, f);
    StretchesWeight(values, layout, 8, f);
    StretchesWeight(values, layout, 9, f);
    StretchesWeight(values, layout, 10, f);
    StretchesWeight(values, layout, 11, f);
  }

  lemma SourceStep<T>(raw: map<string, Tensor<T>>, c: Config, values: seq<T>, role: nat, f: T -> nat)
    requires Accepted(raw, c, values) && Emittable(raw, c.nLayers) && role < ROLES
    ensures PLACES[role] < |LayoutOf(c)|
    ensures SourceWeight(raw, c.nLayers, role + 1, f)
            == SourceWeight(raw, c.nLayers, role, f) + BlockWeight(values, LayoutOf(c), PLACES[role], f)
  {
    SourcePlace(raw, c, values, role);
  }

  lemma SourcesWeight<T>(raw: map<string, Tensor<T>>, c: Config, values: seq<T>, f: T -> nat)
    requires Accepted(raw, c, values) && Emittable(raw, c.nLayers)
    ensures var layout := LayoutOf(c);
            SourceWeight(raw, c.nLayers, ROLES, f)
            == BlockWeight(values, layout, 1, f) + BlockWeight(values, layout, 2, f) + BlockWeight(values, layout, 3, f)
               + BlockWeight(values, layout, 4, f) + BlockWeight(values, layout, 5, f)
               + BlockWeight(values, layout, 6, f)
               + BlockWeight(values, layout, 7, f) + BlockWeight(values, layout, 8, f)
               + BlockWeight(values, layout, 9, f)
  {
    SourceStep(raw, c, values, 0, f);
    SourceStep(raw, c, values, 1, f);
    SourceStep(raw, c, values, 2, f);
    SourceStep(raw, c, values, 3, f);
    SourceStep(raw, c, values, 4, f);
    SourceStep(raw, c, values, 5, f);
    SourceStep(raw, c, values, 6, f);
    SourceStep(raw, c, values, 7, f);
    SourceStep(raw, c, values, 8, f);
  }

  lemma ModelWeight<T>(raw: map<string, Tensor<T>>, layers: nat, f: T -> nat)
    requires Emittable(raw, layers)
    ensures TotalWeight(ModelTensors(raw, layers), f)
            == Weight(raw["token_embd.weight"].data, f) + Weight(raw["output_norm.weight"].data, f)
               + Weight(raw["output.weight"].data, f)
  {
    var m := ModelTensors(raw, layers);
    TotalWeightStep(m, 0, f);
    TotalWeightStep(m, 1, f);
    TotalWeightStep(m, 2, f);
    assert m[..3] == m;
  }

  /** However the floats are weighed, emission carries the weight of the whole input less that of the skipped
      rotary values, plus that of the embeddings once more when they double as the output matrix. */
  lemma ConversionConserves<T>(raw: map<string, Tensor<T>>, c: Config, values: seq<T>, f: T -> nat)
    requires Accepted(raw, c, values)
    ensures Emittable(raw, c.nLayers)
    ensures TotalWeight(Emission(raw, c.nLayers, c.nLayers), f) + Weight(Stretch(values, LayoutOf(c), 11), f)
            == Weight(values, f) + if c.SharedWeights() then Weight(Stretch(values, LayoutOf(c), 0), f) else 0
  {
    var layout := LayoutOf(c);
    var l := c.nLayers;
    AcceptedIsEmittable(raw, c, values);
    EmissionWeight(raw, l, l, f);
    AllShares(raw, l, ROLES, f);
    SourcesWeight(raw, c, values, f);
    ModelWeight(raw, l, f);
    TwelveStretches(values, layout, f);
    TensorsPartitionTheInput(raw, c, values);
    if !c.SharedWeights() {
      StretchesWeight(values, layout, 12, f);
    }
  }

  function Unit<T>(x: T): nat { 1 }

  lemma {:induction false} WeightCounts<T>(s: seq<T>)
    ensures Weight(s, Unit) == |s|
  {
    if s != [] {
      WeightCounts(s[..|s| - 1]);
    }
  }

  /** The number of floats emitted: the input's, less the rotary ones, plus a shared output matrix. */
  lemma EmittedFloatCount<T>(raw: map<string, Tensor<T>>, c: Config, values: seq<T>)
    requires Accepted(raw, c, values)
    ensures Emittable(raw, c.nLayers)
    ensures TotalWeight(Emission(raw, c.nLayers, c.nLayers), Unit) + RopeCount(c)
            == FloatCount(c) + if c.SharedWeights() then c.VocabSize() * c.dim else 0
  {
    var layout := LayoutOf(c);
    ConversionConserves(raw, c, values, Unit);
    WeightCounts(values);
    WeightCounts(Stretch(values, layout, 11));
    WeightCounts(Stretch(values, layout, 0));
    AcceptedSizes(raw, c, values);
  }
}
