/**
 Checkpoint conversion (scripts/querit_checkpoint_convert.py): a two-class head is rewritten as a
 scalar sigmoid head, in exact real arithmetic, and the weight index is rewritten beside it.
 */
module HeadConversion {
  const WIDTH: nat := 2560
  const BF16_BYTES: nat := 2
  const SOURCE_TOTAL_SIZE: nat := 8_043_564_036
  const OUTPUT_TOTAL_SIZE: nat := 8_043_558_914

  type Vector = seq<real>

  datatype Tensor =
    | Matrix(rows: seq<Vector>, bf16: bool)
    | Flat(cells: Vector, bf16: bool)

  datatype Result<+T> = Success(value: T) | Failure(reason: Reason)

  datatype Reason =
    | ScorePresent | MissingTensor | WeightShape | BiasShape | WeightType | BiasType
    | BadTotalSize | WrongShard

  // ----- linear algebra -----

  function Dot(w: Vector, h: Vector): real
    requires |w| == |h|
  {
    if w == [] then 0.0 else Dot(w[..|w| - 1], h[..|h| - 1]) + w[|w| - 1] * h[|h| - 1]
  }

  function Minus(a: Vector, b: Vector): (r: Vector)
    requires |a| == |b|
    ensures |r| == |a|
  {
    seq(|a|, i requires 0 <= i < |a| => a[i] - b[i])
  }

  lemma {:induction false} DotMinus(a: Vector, b: Vector, h: Vector)
    requires |a| == |b| == |h|
    ensures Dot(Minus(a, b), h) == Dot(a, h) - Dot(b, h)
    decreases |a|
  {
    if a != [] {
      var n := |a| - 1;
      DotMinus(a[..n], b[..n], h[..n]);
      assert Minus(a, b)[..n] == Minus(a[..n], b[..n]);
      assert (a[n] - b[n]) * h[n] == a[n] * h[n] - b[n] * h[n];
    }
  }

  // ----- the state rewrite -----

  type State = map<string, Tensor>

  predicate TwoClassHead(weight: Tensor, bias: Tensor) {
    && weight.Matrix? && |weight.rows| == 2
    && (forall i :: 0 <= i < 2 ==> |weight.rows[i]| == WIDTH)
    && bias.Flat? && |bias.cells| == 2
  }

  /** rewrite_head_state, checks in the order of the source. */
  function RewriteHead(state: State): Result<State> {
    if "score.weight" in state || "score.bias" in state then Failure(ScorePresent)
    else if "head.weight" !in state || "head.bias" !in state then Failure(MissingTensor)
    else
      var weight, bias := state["head.weight"], state["head.bias"];
      if !weight.Matrix? || |weight.rows| != 2 || |weight.rows[0]| != WIDTH || |weight.rows[1]| != WIDTH
      then Failure(WeightShape)
      else if !bias.Flat? || |bias.cells| != 2 then Failure(BiasShape)
      else if !weight.bf16 then Failure(WeightType)
      else if !bias.bf16 then Failure(BiasType)
      else
        Success((state - {"head.weight", "head.bias"})[
          "score.weight" := Matrix([Minus(weight.rows[1], weight.rows[0])], true)][
          "score.bias" := Flat([bias.cells[1] - bias.cells[0]], true)])
  }

  /** The logits of the original head on one hidden vector. */
  function Logit(state: State, c: nat, hidden: Vector): real
    requires "head.weight" in state && "head.bias" in state
    requires TwoClassHead(state["head.weight"], state["head.bias"]) && c < 2 && |hidden| == WIDTH
  {
    Dot(state["head.weight"].rows[c], hidden) + state["head.bias"].cells[c]
  }

  predicate ScalarHead(state: State) {
    && "score.weight" in state && state["score.weight"].Matrix?
    && |state["score.weight"].rows| == 1 && |state["score.weight"].rows[0]| == WIDTH
    && "score.bias" in state && state["score.bias"].Flat? && |state["score.bias"].cells| == 1
  }

  /** The output of the rewritten head on one hidden vector. */
  function ScalarLogit(state: State, hidden: Vector): real
    requires ScalarHead(state) && |hidden| == WIDTH
  {
    Dot(state["score.weight"].rows[0], hidden) + state["score.bias"].cells[0]
  }

  // ----- scores -----

  /** All that is used of the exponential: positive, and sums become products. */
  ghost predicate IsExponential(exp: real -> real) {
    && (forall x :: exp(x) > 0.0)
    && (forall x, y :: exp(x + y) == exp(x) * exp(y))
  }

  /** The softmax component of one class. */
  ghost function Softmax(exp: real -> real, z0: real, z1: real, c: nat): real
    requires IsExponential(exp) && c < 2
  {
    (if c == 0 then exp(z0) else exp(z1)) / (exp(z0) + exp(z1))
  }

  ghost function Sigmoid(exp: real -> real, z: real): real
    requires IsExponential(exp)
  {
    assert exp(0.0 - z) > 0.0;
    1.0 / (1.0 + exp(0.0 - z))
  }

  lemma {:induction false} SigmoidOfDifference(exp: real -> real, z0: real, z1: real)
    requires IsExponential(exp)
    ensures Sigmoid(exp, z1 - z0) == Softmax(exp, z0, z1, 1)
    ensures 2.0 * Sigmoid(exp, z1 - z0) - 1.0 == Softmax(exp, z0, z1, 1) - Softmax(exp, z0, z1, 0)
    ensures 0.0 < Sigmoid(exp, z1 - z0) < 1.0
  {
    var e0, e1, ratio := exp(z0), exp(z1), exp(0.0 - (z1 - z0));
    assert z0 == z1 + (0.0 - (z1 - z0));
    assert e0 == e1 * ratio;
    Quotients(e0, e1, ratio);
  }

  lemma {:induction false} Quotients(e0: real, e1: real, ratio: real)
    requires e0 > 0.0 && e1 > 0.0 && ratio > 0.0 && e0 == e1 * ratio
    ensures 1.0 / (1.0 + ratio) == e1 / (e0 + e1)
    ensures 2.0 * (1.0 / (1.0 + ratio)) - 1.0 == e1 / (e0 + e1) - e0 / (e0 + e1)
    ensures 0.0 < 1.0 / (1.0 + ratio) < 1.0
  {
    var p1, p0, s := e1 / (e0 + e1), e0 / (e0 + e1), 1.0 / (1.0 + ratio);
    assert p1 * (e0 + e1) == e1 && p0 * (e0 + e1) == e0 && s * (1.0 + ratio) == 1.0;
    assert e0 + e1 == e1 * (1.0 + ratio);
    assert s * (e0 + e1) == e1 * (s * (1.0 + ratio));
    Cancel(s, p1, e0 + e1);
    Cancel(p0 + p1, 1.0, e0 + e1);
    SigmoidRange(s, ratio);
  }

  lemma {:induction false} Cancel(a: real, b: real, c: real)
    requires c > 0.0 && a * c == b * c
    ensures a == b
  {
    assert (a - b) * c == 0.0;
  }

  lemma {:induction false} PositiveFactor(x: real, y: real)
    requires y > 0.0 && x * y > 0.0
    ensures x > 0.0
  {
  }

  lemma {:induction false} SigmoidRange(s: real, ratio: real)
    requires ratio > 0.0 && s * (1.0 + ratio) == 1.0
    ensures 0.0 < s < 1.0
  {
    PositiveFactor(s, 1.0 + ratio);
    assert s + s * ratio == 1.0;
    assert s * ratio > 0.0;
  }

  /** The legacy server's score of one hidden vector: p1 - p0. */
  ghost function LegacyScore(exp: real -> real, state: State, hidden: Vector): real
    requires IsExponential(exp) && RewriteHead(state).Success? && |hidden| == WIDTH
  {
    var z0, z1 := Logit(state, 0, hidden), Logit(state, 1, hidden);
    Softmax(exp, z0, z1, 1) - Softmax(exp, z0, z1, 0)
  }

  /** The converted model's public score of one hidden vector. */
  ghost function PublicScore(exp: real -> real, state: State, hidden: Vector): real
    requires IsExponential(exp) && RewriteHead(state).Success? && |hidden| == WIDTH
  {
    RewrittenShape(state);
    Sigmoid(exp, ScalarLogit(RewriteHead(state).value, hidden))
  }

  /** normalize_candidate_response maps a public score into the signed domain. */
  function Signed(score: real): real {
    2.0 * score - 1.0
  }

  lemma {:induction false} RewrittenShape(state: State)
    requires RewriteHead(state).Success?
    ensures ScalarHead(RewriteHead(state).value)
  {
  }

  /** Exactly the BF16 two-class heads without score tensors are rewritten, and everything else is kept. */
  lemma {:induction false} RewriteAccepts(state: State)
    ensures RewriteHead(state).Success? <==>
              && "score.weight" !in state && "score.bias" !in state && "head.weight" in state && "head.bias" in state
              && TwoClassHead(state["head.weight"], state["head.bias"])
              && state["head.weight"].bf16 && state["head.bias"].bf16
    ensures RewriteHead(state).Success? ==>
              var out := RewriteHead(state).value;
              && ScalarHead(out) && out["score.weight"].bf16 && out["score.bias"].bf16
              && "head.weight" !in out && "head.bias" !in out
              && (forall key :: key in state && key != "head.weight" && key != "head.bias" ==>
                    key in out && out[key] == state[key])
              && (forall key :: key in out && key != "score.weight" && key != "score.bias" ==> key in state)
  {
    RewrittenLabels();
  }

  lemma {:induction false} RewrittenLabels()
    ensures "score.weight" != "score.bias" && "head.weight" != "head.bias"
    ensures "score.weight" != "head.weight" && "score.bias" != "head.bias"
    ensures "score.weight" != "head.bias" && "score.bias" != "head.weight"
  {
    assert "score.weight"[0] == 's' && "score.bias"[0] == 's' && "head.weight"[0] == 'h' && "head.bias"[0] == 'h';
    assert |"score.weight"| != |"score.bias"| && |"head.weight"| != |"head.bias"|;
  }

  /** For every hidden vector: sigmoid of the new head is the second softmax component of the old one. */
  lemma {:induction false} ConversionPreservesMeaning(exp: real -> real, state: State, hidden: Vector)
    requires IsExponential(exp) && RewriteHead(state).Success? && |hidden| == WIDTH
    ensures PublicScore(exp, state, hidden)
            == Softmax(exp, Logit(state, 0, hidden), Logit(state, 1, hidden), 1)
    ensures Signed(PublicScore(exp, state, hidden)) == LegacyScore(exp, state, hidden)
    ensures -1.0 < LegacyScore(exp, state, hidden) < 1.0
  {
    var rows, cells := state["head.weight"].rows, state["head.bias"].cells;
    DotMinus(rows[1], rows[0], hidden);
    RewrittenShape(state);
    var z0, z1 := Logit(state, 0, hidden), Logit(state, 1, hidden);
    assert ScalarLogit(RewriteHead(state).value, hidden) == z1 - z0;
    SigmoidOfDifference(exp, z0, z1);
  }

  /** So the two servers rank any two documents the same way, ties included. */
  lemma {:induction false} ConversionKeepsOrder(exp: real -> real, state: State, a: Vector, b: Vector)
    requires IsExponential(exp) && RewriteHead(state).Success? && |a| == |b| == WIDTH
    ensures PublicScore(exp, state, a) < PublicScore(exp, state, b)
            <==> LegacyScore(exp, state, a) < LegacyScore(exp, state, b)
    ensures PublicScore(exp, state, a) == PublicScore(exp, state, b)
            <==> LegacyScore(exp, state, a) == LegacyScore(exp, state, b)
  {
    ConversionPreservesMeaning(exp, state, a);
    ConversionPreservesMeaning(exp, state, b);
  }

  // ----- the index -----

  datatype Index = Index(totalSize: int, weightMap: map<string, string>)

  function Renamed(key: string): string {
    if key == "head.weight" then "score.weight"
    else if key == "head.bias" then "score.bias"
    else key
  }

  function RewriteIndex(index: Index, shard: string): Result<Index> {
    var weights := index.weightMap;
    if index.totalSize != SOURCE_TOTAL_SIZE then Failure(BadTotalSize)
    else if "score.weight" in weights || "score.bias" in weights then Failure(ScorePresent)
    else if "head.weight" !in weights || "head.bias" !in weights then Failure(MissingTensor)
    else if weights["head.weight"] != shard || weights["head.bias"] != shard then Failure(WrongShard)
    else
      Success(Index(OUTPUT_TOTAL_SIZE,
        (weights - {"head.weight", "head.bias"})[
          "score.weight" := weights["head.weight"]]["score.bias" := weights["head.bias"]]))
  }

  /** The dictionary comprehension of the source renames keys one by one and loses none. */
  lemma {:induction false} IndexIsRenamed(index: Index, shard: string)
    requires RewriteIndex(index, shard).Success?
    ensures var out := RewriteIndex(index, shard).value.weightMap;
            && (forall key :: key in index.weightMap ==>
                  Renamed(key) in out && out[Renamed(key)] == index.weightMap[key])
            && |out| == |index.weightMap|
  {
    var weights := index.weightMap;
    var out := RewriteIndex(index, shard).value.weightMap;
    assert out.Keys == (weights.Keys - {"head.weight", "head.bias"}) + {"score.weight", "score.bias"};
    assert |weights.Keys - {"head.weight", "head.bias"}| == |weights.Keys| - |{"head.weight", "head.bias"}|;
    assert |{"head.weight", "head.bias"}| == 2 == |{"score.weight", "score.bias"}|;
  }

  /** The index lists for this shard exactly the tensors the shard holds. */
  ghost predicate Agrees(weightMap: map<string, string>, shard: string, state: State) {
    forall key :: (key in weightMap && weightMap[key] == shard) <==> key in state
  }

  lemma {:induction false} RewritesStayInStep(index: Index, shard: string, state: State)
    requires Agrees(index.weightMap, shard, state)
    ensures RewriteHead(state).Success? && RewriteIndex(index, shard).Success? ==>
              Agrees(RewriteIndex(index, shard).value.weightMap, shard, RewriteHead(state).value)
    ensures RewriteIndex(index, shard).Success? ==>
              RewriteHead(state) != Failure(MissingTensor) && RewriteHead(state) != Failure(ScorePresent)
  {
  }

  // ----- byte sizes -----

  function CellsOf(rows: seq<Vector>): nat {
    if rows == [] then 0 else CellsOf(rows[..|rows| - 1]) + |rows[|rows| - 1]|
  }

  function ByteSize(t: Tensor): nat {
    BF16_BYTES * (if t.Matrix? then CellsOf(t.rows) else |t.cells|)
  }

  ghost function TotalSize(state: State): nat
    decreases |state|
  {
    if state == map[] then 0 else
      var key :| key in state;
      ByteSize(state[key]) + TotalSize(state - {key})
  }

  lemma {:induction false} TotalWithout(state: State, key: string)
    requires key in state
    ensures TotalSize(state) == ByteSize(state[key]) + TotalSize(state - {key})
    decreases |state|
  {
    var picked :| picked in state
      && TotalSize(state) == ByteSize(state[picked]) + TotalSize(state - {picked});
    if picked != key {
      TotalWithout(state - {picked}, key);
      TotalWithout(state - {key}, picked);
      assert state - {picked} - {key} == state - {key} - {picked};
    }
  }

  lemma {:induction false} TotalWith(state: State, key: string, t: Tensor)
    requires key !in state
    ensures TotalSize(state[key := t]) == TotalSize(state) + ByteSize(t)
  {
    TotalWithout(state[key := t], key);
    assert state[key := t] - {key} == state;
  }

  /** The bytes removed from the shard are exactly the difference of the two pinned totals. */
  lemma {:induction false} SizeDeltaIsExact(state: State)
    requires RewriteHead(state).Success?
    ensures TotalSize(state) - TotalSize(RewriteHead(state).value) == SOURCE_TOTAL_SIZE - OUTPUT_TOTAL_SIZE
  {
    var weight, bias := state["head.weight"], state["head.bias"];
    TotalWithout(state, "head.weight");
    var without := state - {"head.weight"};
    TotalWithout(without, "head.bias");
    var rest := without - {"head.bias"};
    assert rest == state - {"head.weight", "head.bias"};
    var scoreWeight := Matrix([Minus(weight.rows[1], weight.rows[0])], true);
    var scoreBias := Flat([bias.cells[1] - bias.cells[0]], true);
    TotalWith(rest, "score.weight", scoreWeight);
    TotalWith(rest["score.weight" := scoreWeight], "score.bias", scoreBias);
    assert weight.rows[..1][..0] == [] && weight.rows[..1][0] == weight.rows[0];
    assert CellsOf(weight.rows[..1]) == WIDTH;
    assert CellsOf(weight.rows) == 2 * WIDTH;
    assert scoreWeight.rows[..0] == [];
    assert CellsOf(scoreWeight.rows) == WIDTH;
  }

  /** An index is rewritten exactly when it has the pinned size and both head tensors in this shard. */
  lemma {:induction false} IndexAccepts(index: Index, shard: string)
    ensures RewriteIndex(index, shard).Success? <==>
              && index.totalSize == 8_043_564_036
              && "score.weight" !in index.weightMap && "score.bias" !in index.weightMap
              && "head.weight" in index.weightMap && index.weightMap["head.weight"] == shard
              && "head.bias" in index.weightMap && index.weightMap["head.bias"] == shard
    ensures RewriteIndex(index, shard).Success? ==> RewriteIndex(index, shard).value.totalSize == 8_043_558_914
  {}

  /** An index whose total was right before is right after, whatever the other shards hold. */
  lemma {:induction false} TotalStaysRight(index: Index, shard: string, state: State, others: int)
    requires RewriteHead(state).Success? && RewriteIndex(index, shard).Success?
    requires index.totalSize == others + TotalSize(state)
    ensures RewriteIndex(index, shard).value.totalSize == others + TotalSize(RewriteHead(state).value)
  {
    SizeDeltaIsExact(state);
    IndexAccepts(index, shard);
  }
}
