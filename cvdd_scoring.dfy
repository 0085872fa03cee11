/**
 * The arithmetic of CVDD's scoring and loss (cvdd/models/cvdd.py, `forward`
 * from the distance matrix onward), over exact reals.
 *
 * The per-head distance matrix D (batch x heads) is an input: the cosine
 * distance and the attention aggregation that produce it are not modelled.
 * The head softmax is modelled exactly for its default temperature 0, where
 * it is uniform; for any other temperature its result is an input.
 */
module CvddScoring {
  import opened Wrappers

  type Matrix = seq<seq<real>>

  /** `m` has `rows` rows of `cols` entries each. */
  predicate IsMatrix(m: Matrix, rows: nat, cols: nat) {
    |m| == rows && forall i :: 0 <= i < |m| ==> |m[i]| == cols
  }

  function Sum(s: seq<real>): real {
    if s == [] then 0.0 else s[0] + Sum(s[1..])
  }

  function Mean(s: seq<real>): real
    requires |s| > 0
  {
    Sum(s) / (|s| as real)
  }

  /** Sum of the pairwise products: `(u * v).sum()` and the row products of `C @ C.T`. */
  function Dot(u: seq<real>, v: seq<real>): real
    requires |u| == |v|
  {
    if u == [] then 0.0 else u[0] * v[0] + Dot(u[1..], v[1..])
  }

  // ---------------------------------------------------------------------
  // Sums
  // ---------------------------------------------------------------------

  lemma {:induction false} SumBounds(s: seq<real>, lo: real, hi: real)
    requires forall i :: 0 <= i < |s| ==> lo <= s[i] <= hi
    ensures (|s| as real) * lo <= Sum(s) <= (|s| as real) * hi
  {
    if s != [] {
      SumBounds(s[1..], lo, hi);
    }
  }

  lemma {:induction false} SumAppend(s: seq<real>, t: seq<real>)
    ensures Sum(s + t) == Sum(s) + Sum(t)
  {
    if s != [] {
      SumAppend(s[1..], t);
      assert (s + t)[1..] == s[1..] + t;
    } else {
      assert s + t == t;
    }
  }

  /** `x ** 2`. */
  function Square(x: real): real {
    x * x
  }

  lemma ProductSign(a: real, b: real)
    ensures a > 0.0 && b > 0.0 ==> a * b > 0.0
    ensures a < 0.0 && b < 0.0 ==> a * b > 0.0
    ensures a == 0.0 || b == 0.0 ==> a * b == 0.0
  {
  }

  /**
   * `x` itself, behind a function call: the solver settles the sign of a
   * product of two distinct terms, but not of `x * x` written directly.
   */
  ghost function Twin(x: real): real {
    x
  }

  /** A square is never negative, and it is zero only at zero. */
  lemma SquareFacts(x: real)
    ensures Square(x) >= 0.0
    ensures Square(x) == 0.0 <==> x == 0.0
  {
    var y := Twin(x);
    ProductSign(x, y);
    assert y == x;
  }

  lemma {:induction false} SumNonNegative(s: seq<real>)
    requires forall i :: 0 <= i < |s| ==> 0.0 <= s[i]
    ensures 0.0 <= Sum(s)
    ensures Sum(s) == 0.0 <==> forall i :: 0 <= i < |s| ==> s[i] == 0.0
  {
    if s != [] {
      SumNonNegative(s[1..]);
      if Sum(s) == 0.0 {
        forall i | 0 <= i < |s| ensures s[i] == 0.0 {
          if i > 0 { assert s[i] == s[1..][i - 1]; }
        }
      }
    }
  }

  /** Weighting every entry by the same factor scales the sum. */
  lemma {:induction false} DotConstant(w: seq<real>, d: seq<real>, c: real)
    requires |w| == |d|
    requires forall i :: 0 <= i < |w| ==> w[i] == c
    ensures Dot(w, d) == c * Sum(d)
  {
    if w != [] {
      DotConstant(w[1..], d[1..], c);
    }
  }

  // ---------------------------------------------------------------------
  // Anomaly score: mean over heads
  // ---------------------------------------------------------------------

  /** `distances.mean(-1)`: one score per example. */
  function AnomalyScores(D: Matrix): (scores: seq<real>)
    requires forall b :: 0 <= b < |D| ==> |D[b]| > 0
    ensures |scores| == |D|
    ensures forall b :: 0 <= b < |D| ==> scores[b] * (|D[b]| as real) == Sum(D[b])
  {
    seq(|D|, b requires 0 <= b < |D| => Mean(D[b]))
  }

  /**
   * Each example's score lies within the range of its own per-head
   * distances; with cosine distances in [0, 1] the score is in [0, 1].
   */
  lemma ScoreWithinDistanceRange(D: Matrix, H: nat, lo: real, hi: real)
    requires H > 0 && IsMatrix(D, |D|, H)
    requires forall b, h :: 0 <= b < |D| && 0 <= h < H ==> lo <= D[b][h] <= hi
    ensures forall b :: 0 <= b < |D| ==> lo <= AnomalyScores(D)[b] <= hi
  {
    forall b | 0 <= b < |D| ensures lo <= AnomalyScores(D)[b] <= hi {
      SumBounds(D[b], lo, hi);
    }
  }

  // ---------------------------------------------------------------------
  // Head weights and the per-example loss term
  // ---------------------------------------------------------------------

  /**
   * `(-alpha * distances).softmax(1)`. With alpha = 0 every logit is 0 and the
   * softmax is exactly uniform; otherwise the weights are the given `softmaxed`.
   */
  function HeadWeights(alpha: real, D: Matrix, H: nat, softmaxed: Matrix): (sigmas: Matrix)
    requires H > 0 && IsMatrix(D, |D|, H)
    requires alpha != 0.0 ==> IsMatrix(softmaxed, |D|, H)
    ensures IsMatrix(sigmas, |D|, H)
    ensures alpha == 0.0 ==> forall b, h :: 0 <= b < |D| && 0 <= h < H ==> sigmas[b][h] == 1.0 / (H as real)
    ensures alpha == 0.0 ==> forall b :: 0 <= b < |D| ==>
      Sum(sigmas[b]) == 1.0 && forall h :: 0 <= h < H ==> sigmas[b][h] > 0.0
    ensures alpha != 0.0 ==> sigmas == softmaxed
  {
    if alpha == 0.0 then
      var w := 1.0 / (H as real);
      var uniform := seq(H, _ => w);
      SumBounds(uniform, w, w);
      assert (H as real) * w == 1.0;
      seq(|D|, _ => uniform)
    else softmaxed
  }

  /** `(sigmas * distances).sum(1)`. */
  function BatchedLoss(sigmas: Matrix, D: Matrix): (loss: seq<real>)
    requires |sigmas| == |D|
    requires forall b :: 0 <= b < |D| ==> |sigmas[b]| == |D[b]|
    ensures |loss| == |D|
  {
    seq(|D|, b requires 0 <= b < |D| => Dot(sigmas[b], D[b]))
  }

  /**
   * With the default distance weight 0, every example's loss term is exactly
   * its anomaly score.
   */
  lemma DefaultLossTermIsScore(D: Matrix, H: nat, softmaxed: Matrix)
    requires H > 0 && IsMatrix(D, |D|, H)
    ensures BatchedLoss(HeadWeights(0.0, D, H, softmaxed), D) == AnomalyScores(D)
  {
    var sigmas := HeadWeights(0.0, D, H, softmaxed);
    forall b | 0 <= b < |D|
      ensures BatchedLoss(sigmas, D)[b] == AnomalyScores(D)[b]
    {
      DotConstant(sigmas[b], D[b], 1.0 / (H as real));
    }
  }

  // ---------------------------------------------------------------------
  // Loss policy: masked mean over non-anomalous examples, or full mean
  // ---------------------------------------------------------------------

  /** `label != anomaly_label_index`: true for examples that take part in the loss. */
  function LossMask(labels: seq<int>, anomalyIndex: int): (mask: seq<bool>)
    ensures |mask| == |labels|
    ensures forall i :: 0 <= i < |labels| ==> (mask[i] <==> labels[i] != anomalyIndex)
  {
    seq(|labels|, i requires 0 <= i < |labels| => labels[i] != anomalyIndex)
  }

  function CountTrue(mask: seq<bool>): nat {
    if mask == [] then 0 else (if mask[0] then 1 else 0) + CountTrue(mask[1..])
  }

  /** `masked_fill(~mask, 0.0)`. */
  function MaskFill(v: seq<real>, mask: seq<bool>): (r: seq<real>)
    requires |v| == |mask|
    ensures |r| == |v|
  {
    if v == [] then [] else [if mask[0] then v[0] else 0.0] + MaskFill(v[1..], mask[1..])
  }

  /** The entries of `v` whose mask is set, in order. */
  function Kept(v: seq<real>, mask: seq<bool>): (r: seq<real>)
    requires |v| == |mask|
  {
    if v == [] then [] else (if mask[0] then [v[0]] else []) + Kept(v[1..], mask[1..])
  }

  /**
   * `util.masked_mean(v, mask, dim=0)`: the sum of the kept entries over their
   * count. With no entry kept the value is left to the framework (None).
   */
  function MaskedMean(v: seq<real>, mask: seq<bool>): Option<real>
    requires |v| == |mask|
  {
    var count := CountTrue(mask);
    if count == 0 then None else Some(Sum(MaskFill(v, mask)) / (count as real))
  }

  lemma {:induction false} MaskFillSumsKept(v: seq<real>, mask: seq<bool>)
    requires |v| == |mask|
    ensures Sum(MaskFill(v, mask)) == Sum(Kept(v, mask))
    ensures CountTrue(mask) == |Kept(v, mask)|
  {
    if v != [] {
      MaskFillSumsKept(v[1..], mask[1..]);
      var head := if mask[0] then [v[0]] else [];
      SumAppend(head, Kept(v[1..], mask[1..]));
      assert MaskFill(v, mask)[1..] == MaskFill(v[1..], mask[1..]);
    }
  }

  /** The masked mean is the plain mean of the kept entries. */
  lemma MaskedMeanIsMeanOfKept(v: seq<real>, mask: seq<bool>)
    requires |v| == |mask|
    ensures MaskedMean(v, mask).Some? <==> |Kept(v, mask)| > 0
    ensures MaskedMean(v, mask).Some? ==> MaskedMean(v, mask).value == Mean(Kept(v, mask))
  {
    MaskFillSumsKept(v, mask);
  }

  /** Nothing is kept exactly when no mask entry is set. */
  lemma {:induction false} KeptEmptyIffNoneKept(v: seq<real>, mask: seq<bool>)
    requires |v| == |mask|
    ensures |Kept(v, mask)| == 0 <==> forall i :: 0 <= i < |mask| ==> !mask[i]
  {
    if v != [] {
      KeptEmptyIffNoneKept(v[1..], mask[1..]);
      if !mask[0] && forall i :: 0 <= i < |mask| - 1 ==> !mask[1..][i] {
        forall i | 0 <= i < |mask| ensures !mask[i] {
          if i > 0 {
            assert mask[i] == mask[1..][i - 1];
          }
        }
      }
    }
  }

  lemma {:induction false} MaskFillIgnoresMasked(v: seq<real>, w: seq<real>, mask: seq<bool>)
    requires |v| == |w| == |mask|
    requires forall i :: 0 <= i < |mask| && mask[i] ==> v[i] == w[i]
    ensures MaskFill(v, mask) == MaskFill(w, mask)
  {
    if v != [] {
      MaskFillIgnoresMasked(v[1..], w[1..], mask[1..]);
    }
  }

  lemma {:induction false} MaskFillAllKept(v: seq<real>, mask: seq<bool>)
    requires |v| == |mask|
    requires forall i :: 0 <= i < |mask| ==> mask[i]
    ensures MaskFill(v, mask) == v
    ensures CountTrue(mask) == |v|
  {
    if v != [] {
      MaskFillAllKept(v[1..], mask[1..]);
    }
  }

  /** The data term of the loss, before the orthogonality penalty. */
  function DataLoss(batched: seq<real>, labels: Option<seq<int>>, trainWithoutAnomaly: bool,
                    anomalyIndex: int): Option<real>
    requires |batched| > 0
    requires labels.Some? ==> |labels.value| == |batched|
  {
    if trainWithoutAnomaly && labels.Some? then
      MaskedMean(batched, LossMask(labels.value, anomalyIndex))
    else
      Some(Mean(batched))
  }

  /**
   * Under the exclusion policy with labels given, the loss does not depend on
   * the loss terms of anomalous-labelled examples at all.
   */
  lemma DataLossIgnoresAnomalous(v: seq<real>, w: seq<real>, labels: seq<int>, anomalyIndex: int)
    requires |v| == |w| == |labels| > 0
    requires forall i :: 0 <= i < |labels| && labels[i] != anomalyIndex ==> v[i] == w[i]
    ensures DataLoss(v, Some(labels), true, anomalyIndex) == DataLoss(w, Some(labels), true, anomalyIndex)
  {
    MaskFillIgnoresMasked(v, w, LossMask(labels, anomalyIndex));
  }

  /**
   * The loss is the mean over the examples not labelled anomalous when the
   * policy is on and labels are given, and the mean over the whole batch
   * otherwise.
   */
  lemma DataLossPolicy(v: seq<real>, labels: Option<seq<int>>, trainWithoutAnomaly: bool, anomalyIndex: int)
    requires |v| > 0
    requires labels.Some? ==> |labels.value| == |v|
    ensures !(trainWithoutAnomaly && labels.Some?) ==> DataLoss(v, labels, trainWithoutAnomaly, anomalyIndex) == Some(Mean(v))
    ensures trainWithoutAnomaly && labels.Some? ==>
      var kept := Kept(v, LossMask(labels.value, anomalyIndex));
      (DataLoss(v, labels, trainWithoutAnomaly, anomalyIndex).Some? <==> |kept| > 0) &&
      (|kept| > 0 ==> DataLoss(v, labels, trainWithoutAnomaly, anomalyIndex) == Some(Mean(kept)))
  {
    if trainWithoutAnomaly && labels.Some? {
      MaskedMeanIsMeanOfKept(v, LossMask(labels.value, anomalyIndex));
    }
  }

  /** A batch with no anomalous label gives the same loss under either policy. */
  lemma DataLossWithoutAnomaliesIsFullMean(v: seq<real>, labels: seq<int>, trainWithoutAnomaly: bool, anomalyIndex: int)
    requires |v| == |labels| > 0
    requires forall i :: 0 <= i < |labels| ==> labels[i] != anomalyIndex
    ensures DataLoss(v, Some(labels), trainWithoutAnomaly, anomalyIndex) == Some(Mean(v))
  {
    MaskFillAllKept(v, LossMask(labels, anomalyIndex));
  }

  // ---------------------------------------------------------------------
  // Orthogonality penalty
  // ---------------------------------------------------------------------

  /** Entry (i, j) of the H x H identity matrix. */
  function Eye(i: nat, j: nat): real {
    if i == j then 1.0 else 0.0
  }

  /** `C @ C.T == eye(H)`: the rows of the context bank are orthonormal. */
  ghost predicate Orthonormal(C: Matrix, k: nat)
    requires IsMatrix(C, |C|, k)
  {
    forall i, j :: 0 <= i < |C| && 0 <= j < |C| ==> Dot(C[i], C[j]) == Eye(i, j)
  }

  /** `(C @ C.T - eye) ** 2`, as a matrix of squared deviations. */
  function SquaredDeviation(C: Matrix, k: nat): (m: Matrix)
    requires IsMatrix(C, |C|, k)
    ensures IsMatrix(m, |C|, |C|)
  {
    seq(|C|, i requires 0 <= i < |C| =>
      seq(|C|, j requires 0 <= j < |C| => Square(Dot(C[i], C[j]) - Eye(i, j))))
  }

  function RowSums(m: Matrix): (r: seq<real>)
    ensures |r| == |m|
  {
    seq(|m|, i requires 0 <= i < |m| => Sum(m[i]))
  }

  /** `((C @ C.T - eye) ** 2).mean()` over all H * H entries. */
  function Penalty(C: Matrix, k: nat): real
    requires |C| > 0 && IsMatrix(C, |C|, k)
  {
    Sum(RowSums(SquaredDeviation(C, k))) / ((|C| * |C|) as real)
  }

  /** Dividing by the `H * H` entry count keeps the sign and zeroness of a total. */
  lemma MeanOverSquareCount(total: real, h: nat)
    requires h > 0
    ensures total >= 0.0 ==> total / ((h * h) as real) >= 0.0
    ensures total / ((h * h) as real) == 0.0 <==> total == 0.0
  {
    var n := (h * h) as real;
    assert n > 0.0;
    assert total == (total / n) * n;
  }

  /** One row of squared deviations sums to 0 exactly when that row of `C·Cᵀ` is the identity's. */
  lemma RowDeviationZeroIffIdentityRow(C: Matrix, k: nat, i: nat)
    requires IsMatrix(C, |C|, k) && i < |C|
    ensures 0.0 <= Sum(SquaredDeviation(C, k)[i])
    ensures Sum(SquaredDeviation(C, k)[i]) == 0.0 <==>
      forall j :: 0 <= j < |C| ==> Dot(C[i], C[j]) == Eye(i, j)
  {
    var row := SquaredDeviation(C, k)[i];
    forall j | 0 <= j < |C| ensures row[j] == Square(Dot(C[i], C[j]) - Eye(i, j)) && row[j] >= 0.0 {
      SquareFacts(Dot(C[i], C[j]) - Eye(i, j));
    }
    SumNonNegative(row);
    if Sum(row) == 0.0 {
      forall j | 0 <= j < |C| ensures Dot(C[i], C[j]) == Eye(i, j) {
        assert row[j] == 0.0;
        SquareFacts(Dot(C[i], C[j]) - Eye(i, j));
      }
    }
  }

  /** The penalty is never negative and vanishes exactly on an orthonormal bank. */
  lemma PenaltyZeroIffOrthonormal(C: Matrix, k: nat)
    requires |C| > 0 && IsMatrix(C, |C|, k)
    ensures Penalty(C, k) >= 0.0
    ensures Penalty(C, k) == 0.0 <==> Orthonormal(C, k)
  {
    var rows := RowSums(SquaredDeviation(C, k));
    forall i | 0 <= i < |C|
      ensures 0.0 <= rows[i]
      ensures rows[i] == 0.0 <==> forall j :: 0 <= j < |C| ==> Dot(C[i], C[j]) == Eye(i, j)
    {
      RowDeviationZeroIffIdentityRow(C, k, i);
    }
    SumNonNegative(rows);
    MeanOverSquareCount(Sum(rows), |C|);
    if Orthonormal(C, k) {
      forall i | 0 <= i < |rows| ensures rows[i] == 0.0 {
        assert forall j :: 0 <= j < |C| ==> Dot(C[i], C[j]) == Eye(i, j);
      }
    }
  }

  /** Two identical context vectors always cost a strictly positive penalty. */
  lemma DuplicateContextVectorsPenalised(C: Matrix, k: nat, i: nat, j: nat)
    requires |C| > 0 && IsMatrix(C, |C|, k)
    requires i < |C| && j < |C| && i != j && C[i] == C[j]
    ensures Penalty(C, k) > 0.0
  {
    PenaltyZeroIffOrthonormal(C, k);
    assert Dot(C[i], C[i]) == Dot(C[i], C[j]);
    assert Eye(i, i) != Eye(i, j);
    assert !Orthonormal(C, k);
  }

  /** `if self._lambda: loss += self._lambda * penalty`. */
  function TotalLoss(data: Option<real>, lambda: real, C: Matrix, k: nat): Option<real>
    requires |C| > 0 && IsMatrix(C, |C|, k)
  {
    if lambda != 0.0 && data.Some? then Some(data.value + lambda * Penalty(C, k))
    else data
  }

  /**
   * With lambda 0 the penalty is not added; with a positive lambda it never
   * lowers the loss and leaves it unchanged exactly on an orthonormal bank.
   */
  lemma PenaltyGating(data: Option<real>, lambda: real, C: Matrix, k: nat)
    requires |C| > 0 && IsMatrix(C, |C|, k)
    ensures lambda == 0.0 ==> TotalLoss(data, lambda, C, k) == data
    ensures TotalLoss(data, lambda, C, k).Some? <==> data.Some?
    ensures lambda > 0.0 && data.Some? ==>
      TotalLoss(data, lambda, C, k).value >= data.value &&
      (TotalLoss(data, lambda, C, k).value == data.value <==> Orthonormal(C, k))
  {
    PenaltyZeroIffOrthonormal(C, k);
    if lambda > 0.0 && data.Some? {
      var p := Penalty(C, k);
      assert lambda * p >= 0.0;
      assert lambda * p == 0.0 <==> p == 0.0;
    }
  }

  // ---------------------------------------------------------------------
  // Binary labels for the AUC metric
  // ---------------------------------------------------------------------

  /** `(label == anomaly_label_index).long()`. */
  function BinaryLabels(labels: seq<int>, anomalyIndex: int): (r: seq<int>)
    ensures |r| == |labels|
    ensures forall i :: 0 <= i < |labels| ==> r[i] in {0, 1}
    ensures forall i :: 0 <= i < |labels| ==> (r[i] == 1 <==> labels[i] == anomalyIndex)
  {
    seq(|labels|, i requires 0 <= i < |labels| => if labels[i] == anomalyIndex then 1 else 0)
  }

  /** The examples the AUC counts as positive are exactly those the loss excludes. */
  lemma PositivesAreExcludedFromLoss(labels: seq<int>, anomalyIndex: int)
    ensures forall i :: 0 <= i < |labels| ==>
      (BinaryLabels(labels, anomalyIndex)[i] == 1 <==> !LossMask(labels, anomalyIndex)[i])
  {
  }
}
