/**
 * The CVDD model object (cvdd/models/cvdd.py): the dimension checks made at
 * construction, the context-vector bank, one forward pass from the per-head
 * distance matrix onward (including the AUC accumulator it feeds) and the
 * rewrite of token ids into tokens.
 *
 * Encoders and the embedder are reduced to their dimensions, the vocabulary
 * to the anomaly label's index and an id-to-token map, and the random draws
 * of `torch.rand` to a parameter.
 */
module CvddModel {
  import opened Wrappers
  import opened CvddScoring

  /** Input and output dimension of a sequence encoder. */
  datatype EncoderDims = EncoderDims(inputDim: nat, outputDim: nat)

  /** AllenNLP's `ConfigurationError` raised by `check_dimensions_match`. */
  datatype ConfigError = DimensionMismatch(dim1: nat, dim2: nat, name1: string, name2: string)

  /** The runtime error of `expand` when the bank cannot be broadcast. */
  datatype ShapeError = ExpandMismatch(bankDim: nat, encodingDim: nat)

  /** The error of the vocabulary's index-to-token lookup. */
  datatype LookupError = UnknownTokenId(id: int)

  /** Values stored in the output dictionary of a forward pass. */
  datatype OutputValue =
    | LossValue(loss: Option<real>)
    | Scores(scores: seq<real>)
    | TokenIds(ids: seq<seq<int>>)
    | Tokens(tokens: seq<seq<string>>)

  const EmbedderOutName := "text_field_embedder output dim"
  const ContextInName := "context_encoder input dim"
  const ContextOutName := "context_encoder output dim"
  const AttentionInName := "attention_encoder input dim"

  /**
   * The two `check_dimensions_match` calls of the constructor, in order: the
   * first mismatch found is the one reported.
   */
  function CheckDimensions(embedderOut: nat, context: EncoderDims, attention: EncoderDims): (r: Option<ConfigError>)
    ensures r.None? <==> embedderOut == context.inputDim && context.outputDim == attention.inputDim
    ensures r.Some? ==> r.value.dim1 != r.value.dim2
    ensures embedderOut != context.inputDim ==>
      r == Some(DimensionMismatch(embedderOut, context.inputDim, EmbedderOutName, ContextInName))
    ensures embedderOut == context.inputDim && context.outputDim != attention.inputDim ==>
      r == Some(DimensionMismatch(context.outputDim, attention.inputDim, ContextOutName, AttentionInName))
  {
    if embedderOut != context.inputDim then
      Some(DimensionMismatch(embedderOut, context.inputDim, EmbedderOutName, ContextInName))
    else if context.outputDim != attention.inputDim then
      Some(DimensionMismatch(context.outputDim, attention.inputDim, ContextOutName, AttentionInName))
    else
      None
  }

  /** Every draw lies in [0, 1), as `torch.rand` guarantees. */
  predicate UnitDraws(u: Matrix) {
    forall i, j :: 0 <= i < |u| && 0 <= j < |u[i]| ==> 0.0 <= u[i][j] < 1.0
  }

  /** `(torch.rand(...) - 0.5) * 2`. */
  function InitialBank(u: Matrix): (C: Matrix)
    ensures |C| == |u|
    ensures forall i :: 0 <= i < |u| ==> |C[i]| == |u[i]|
  {
    seq(|u|, i requires 0 <= i < |u| => seq(|u[i]|, j requires 0 <= j < |u[i]| => (u[i][j] - 0.5) * 2.0))
  }

  /** The initial context vectors have every coordinate in [-1, 1). */
  lemma InitialBankRange(u: Matrix)
    requires UnitDraws(u)
    ensures forall i, j :: 0 <= i < |u| && 0 <= j < |u[i]| ==> -1.0 <= InitialBank(u)[i][j] < 1.0
  {
    forall i, j | 0 <= i < |u| && 0 <= j < |u[i]|
      ensures -1.0 <= InitialBank(u)[i][j] < 1.0
    {
      assert InitialBank(u)[i][j] == (u[i][j] - 0.5) * 2.0;
    }
  }

  /**
   * Whether `expand(batch_size, num_heads, encoding_dim)` accepts a bank whose
   * last axis has size `bankDim`: equal sizes, or a size-1 axis broadcast.
   */
  predicate Expands(bankDim: nat, encodingDim: nat) {
    bankDim == encodingDim || bankDim == 1
  }

  /** The loss a forward pass reports, composed from the scoring arithmetic. */
  function ForwardLoss(D: Matrix, H: nat, labels: Option<seq<int>>, softmaxed: Matrix,
                       alpha: real, lambda: real, trainWithoutAnomaly: bool, anomalyIndex: int,
                       C: Matrix, k: nat): Option<real>
    requires H > 0 && |D| > 0 && IsMatrix(D, |D|, H)
    requires alpha != 0.0 ==> IsMatrix(softmaxed, |D|, H)
    requires labels.Some? ==> |labels.value| == |D|
    requires |C| > 0 && IsMatrix(C, |C|, k)
  {
    var batched := BatchedLoss(HeadWeights(alpha, D, H, softmaxed), D);
    TotalLoss(DataLoss(batched, labels, trainWithoutAnomaly, anomalyIndex), lambda, C, k)
  }

  /**
   * With distance weight 0 (the default), the exclusion policy off and lambda
   * 0 (the defaults are on and 1.0), the loss is the mean anomaly score of the
   * batch.
   */
  lemma UnweightedUnpenalisedLossIsMeanScore(D: Matrix, H: nat, labels: Option<seq<int>>, softmaxed: Matrix,
                                             anomalyIndex: int, C: Matrix, k: nat)
    requires H > 0 && |D| > 0 && IsMatrix(D, |D|, H)
    requires labels.Some? ==> |labels.value| == |D|
    requires |C| > 0 && IsMatrix(C, |C|, k)
    ensures ForwardLoss(D, H, labels, softmaxed, 0.0, 0.0, false, anomalyIndex, C, k)
      == Some(Mean(AnomalyScores(D)))
  {
    DefaultLossTermIsScore(D, H, softmaxed);
  }

  /**
   * With the constructor's defaults (distance weight 0, lambda 1.0, exclusion
   * on), the loss is the penalty plus the mean anomaly score: over the whole
   * batch without labels, over the examples not labelled anomalous with
   * labels, and undetermined when every example is anomalous.
   */
  lemma DefaultConfigurationLoss(D: Matrix, H: nat, labels: Option<seq<int>>, softmaxed: Matrix,
                                 anomalyIndex: int, C: Matrix, k: nat)
    requires H > 0 && |D| > 0 && IsMatrix(D, |D|, H)
    requires labels.Some? ==> |labels.value| == |D|
    requires |C| > 0 && IsMatrix(C, |C|, k)
    ensures labels.None? ==>
      ForwardLoss(D, H, labels, softmaxed, 0.0, 1.0, true, anomalyIndex, C, k)
        == Some(Mean(AnomalyScores(D)) + Penalty(C, k))
    ensures labels.Some? ==>
      var kept := Kept(AnomalyScores(D), LossMask(labels.value, anomalyIndex));
      (|kept| > 0 ==> ForwardLoss(D, H, labels, softmaxed, 0.0, 1.0, true, anomalyIndex, C, k)
                        == Some(Mean(kept) + Penalty(C, k))) &&
      (|kept| == 0 ==> ForwardLoss(D, H, labels, softmaxed, 0.0, 1.0, true, anomalyIndex, C, k).None?)
  {
    DefaultLossTermIsScore(D, H, softmaxed);
    DataLossPolicy(AnomalyScores(D), labels, true, anomalyIndex);
  }

  /**
   * The loss is left undetermined exactly when the exclusion policy is on,
   * labels are given and every example of the batch is anomalous.
   */
  lemma LossUndeterminedOnlyForAllAnomalous(D: Matrix, H: nat, labels: Option<seq<int>>, softmaxed: Matrix,
                                            alpha: real, lambda: real, trainWithoutAnomaly: bool,
                                            anomalyIndex: int, C: Matrix, k: nat)
    requires H > 0 && |D| > 0 && IsMatrix(D, |D|, H)
    requires alpha != 0.0 ==> IsMatrix(softmaxed, |D|, H)
    requires labels.Some? ==> |labels.value| == |D|
    requires |C| > 0 && IsMatrix(C, |C|, k)
    ensures ForwardLoss(D, H, labels, softmaxed, alpha, lambda, trainWithoutAnomaly, anomalyIndex, C, k).None?
      <==> trainWithoutAnomaly && labels.Some? &&
           forall i :: 0 <= i < |labels.value| ==> labels.value[i] == anomalyIndex
  {
    var batched := BatchedLoss(HeadWeights(alpha, D, H, softmaxed), D);
    var data := DataLoss(batched, labels, trainWithoutAnomaly, anomalyIndex);
    PenaltyGating(data, lambda, C, k);
    if trainWithoutAnomaly && labels.Some? {
      var mask := LossMask(labels.value, anomalyIndex);
      MaskedMeanIsMeanOfKept(batched, mask);
      KeptEmptyIffNoneKept(batched, mask);
    }
  }

  /** Every id of every instance has an entry in the vocabulary. */
  predicate AllKnown(ids: seq<seq<int>>, vocab: map<int, string>) {
    forall i, j :: 0 <= i < |ids| && 0 <= j < |ids[i]| ==> ids[i][j] in vocab
  }

  /** `id` is one of the ids of some instance. */
  predicate Occurs(id: int, ids: seq<seq<int>>) {
    exists i :: 0 <= i < |ids| && id in ids[i]
  }

  /** One token per id, instance by instance. */
  function DecodeIds(ids: seq<seq<int>>, vocab: map<int, string>): (tokens: seq<seq<string>>)
    requires AllKnown(ids, vocab)
    ensures |tokens| == |ids|
    ensures forall i :: 0 <= i < |ids| ==> |tokens[i]| == |ids[i]|
    ensures forall i, j :: 0 <= i < |ids| && 0 <= j < |ids[i]| ==> tokens[i][j] == vocab[ids[i][j]]
  {
    seq(|ids|, i requires 0 <= i < |ids| =>
      seq(|ids[i]|, j requires 0 <= j < |ids[i]| => vocab[ids[i][j]]))
  }

  /** Inverse of the vocabulary on the tokens it produces. */
  function EncodeTokens(tokens: seq<seq<string>>, index: map<string, int>): seq<seq<int>>
    requires forall i, j :: 0 <= i < |tokens| && 0 <= j < |tokens[i]| ==> tokens[i][j] in index
  {
    seq(|tokens|, i requires 0 <= i < |tokens| =>
      seq(|tokens[i]|, j requires 0 <= j < |tokens[i]| => index[tokens[i][j]]))
  }

  /**
   * Decoding keeps the shape of the ids, and looking each token up again in a
   * consistent token-to-index map gives back the ids.
   */
  lemma DecodeIdsRoundTrip(ids: seq<seq<int>>, vocab: map<int, string>, index: map<string, int>)
    requires AllKnown(ids, vocab)
    requires vocab.Values <= index.Keys
    requires forall id :: id in vocab ==> index[vocab[id]] == id
    ensures |DecodeIds(ids, vocab)| == |ids|
    ensures forall i :: 0 <= i < |ids| ==> |DecodeIds(ids, vocab)[i]| == |ids[i]|
    ensures EncodeTokens(DecodeIds(ids, vocab), index) == ids
  {
    var tokens := DecodeIds(ids, vocab);
    forall i, j | 0 <= i < |tokens| && 0 <= j < |tokens[i]| ensures tokens[i][j] in index {
      assert tokens[i][j] == vocab[ids[i][j]];
    }
    forall i | 0 <= i < |ids| ensures EncodeTokens(tokens, index)[i] == ids[i] {
      assert |tokens[i]| == |ids[i]|;
      forall j | 0 <= j < |ids[i]| ensures EncodeTokens(tokens, index)[i][j] == ids[i][j] {
        assert tokens[i][j] == vocab[ids[i][j]];
      }
    }
  }

  /**
   * `make_output_human_readable`: when the dictionary holds token ids, they
   * are replaced by the decoded tokens; otherwise it is returned as it is.
   */
  method MakeOutputHumanReadable(output: map<string, OutputValue>, vocab: map<int, string>)
    returns (r: Result<map<string, OutputValue>, LookupError>)
    requires "token_ids" in output ==> output["token_ids"].TokenIds?
    ensures "token_ids" !in output ==> r == Ok(output)
    ensures "token_ids" in output ==> (r.Ok? <==> AllKnown(output["token_ids"].ids, vocab))
    ensures "token_ids" in output && r.Ok? ==>
      r.value == (output - {"token_ids"})["tokens" := Tokens(DecodeIds(output["token_ids"].ids, vocab))]
    ensures r.Err? ==> r.error.id !in vocab && Occurs(r.error.id, output["token_ids"].ids)
  {
    if "token_ids" !in output {
      return Ok(output);
    }
    var ids := output["token_ids"].ids;
    var tokens: seq<seq<string>> := [];
    var i := 0;
    while i < |ids|
      invariant 0 <= i <= |ids|
      invariant AllKnown(ids[..i], vocab)
      invariant tokens == DecodeIds(ids[..i], vocab)
    {
      var row: seq<string> := [];
      var j := 0;
      while j < |ids[i]|
        invariant 0 <= j <= |ids[i]|
        invariant forall t :: 0 <= t < j ==> ids[i][t] in vocab
        invariant row == seq(j, t requires 0 <= t < j => vocab[ids[i][t]])
      {
        if ids[i][j] !in vocab {
          return Err(UnknownTokenId(ids[i][j]));
        }
        row := row + [vocab[ids[i][j]]];
        j := j + 1;
      }
      assert ids[..i + 1] == ids[..i] + [ids[i]];
      tokens := tokens + [row];
      i := i + 1;
    }
    assert ids[..i] == ids;
    var result := output["tokens" := Tokens(tokens)];
    result := result - {"token_ids"};
    return Ok(result);
  }

  /** The CVDD model: its configuration, its context-vector bank and its AUC accumulator. */
  class Model {
    const anomalyLabelIndex: int
    /** `distance_weight`, the head-softmax temperature. */
    const alpha: real
    /** `context_regularization`, the weight of the orthogonality penalty. */
    const lambda: real
    const trainWithoutAnomaly: bool
    /** The attention encoder's output dimension: the number of heads. */
    const numHeads: nat
    /** The context encoder's input dimension: the last axis of the bank. */
    const bankDim: nat
    /** The context encoder's output dimension: `encoding_dim` in a forward pass. */
    const encodingDim: nat

    /** The learnable bank `C`, `numHeads` vectors of `bankDim` entries. */
    var contextVectors: Matrix
    /** Scores and binary gold labels collected by the AUC metric. */
    var aucPredictions: seq<real>
    var aucGoldLabels: seq<int>

    ghost predicate Valid()
      reads this
    {
      IsMatrix(contextVectors, numHeads, bankDim) &&
      |aucPredictions| == |aucGoldLabels| &&
      forall i :: 0 <= i < |aucGoldLabels| ==> aucGoldLabels[i] in {0, 1}
    }

    constructor (embedderOut: nat, context: EncoderDims, attention: EncoderDims,
                 anomalyLabelIndex: int, alpha: real, lambda: real, trainWithoutAnomaly: bool,
                 draws: Matrix)
      requires CheckDimensions(embedderOut, context, attention).None?
      requires IsMatrix(draws, attention.outputDim, context.inputDim)
      ensures Valid()
      ensures this.anomalyLabelIndex == anomalyLabelIndex && this.alpha == alpha
      ensures this.lambda == lambda && this.trainWithoutAnomaly == trainWithoutAnomaly
      ensures numHeads == attention.outputDim && bankDim == context.inputDim
      ensures encodingDim == context.outputDim
      ensures contextVectors == InitialBank(draws)
      ensures aucPredictions == [] && aucGoldLabels == []
    {
      this.anomalyLabelIndex := anomalyLabelIndex;
      this.alpha := alpha;
      this.lambda := lambda;
      this.trainWithoutAnomaly := trainWithoutAnomaly;
      numHeads := attention.outputDim;
      bankDim := context.inputDim;
      encodingDim := context.outputDim;
      contextVectors := InitialBank(draws);
      aucPredictions := [];
      aucGoldLabels := [];
    }

    /** Construction as the source performs it: the dimension checks first. */
    static method Create(embedderOut: nat, context: EncoderDims, attention: EncoderDims,
                         anomalyLabelIndex: int, alpha: real, lambda: real, trainWithoutAnomaly: bool,
                         draws: Matrix)
      returns (r: Result<Model, ConfigError>)
      requires IsMatrix(draws, attention.outputDim, context.inputDim)
      ensures r.Err? <==> CheckDimensions(embedderOut, context, attention).Some?
      ensures r.Err? ==> r.error == CheckDimensions(embedderOut, context, attention).value
      ensures r.Ok? ==> fresh(r.value) && r.value.Valid()
      ensures r.Ok? ==> r.value.anomalyLabelIndex == anomalyLabelIndex && r.value.alpha == alpha
      ensures r.Ok? ==> r.value.lambda == lambda && r.value.trainWithoutAnomaly == trainWithoutAnomaly
      ensures r.Ok? ==> r.value.numHeads == attention.outputDim && r.value.bankDim == context.inputDim
      ensures r.Ok? ==> r.value.encodingDim == context.outputDim
      ensures r.Ok? ==> r.value.contextVectors == InitialBank(draws)
      ensures r.Ok? ==> r.value.aucPredictions == [] && r.value.aucGoldLabels == []
    {
      var check := CheckDimensions(embedderOut, context, attention);
      if check.Some? {
        return Err(check.value);
      }
      var m := new Model(embedderOut, context, attention, anomalyLabelIndex, alpha, lambda,
                         trainWithoutAnomaly, draws);
      return Ok(m);
    }

    /**
     * One forward pass from the per-head distances `D` (batch x heads) onward.
     * `softmaxed` stands for the head softmax when `alpha` is not 0, and
     * `tokenIds` for the primary indexer's ids when the batch carries them.
     */
    method Forward(D: Matrix, labels: Option<seq<int>>, softmaxed: Matrix, tokenIds: Option<seq<seq<int>>>)
      returns (r: Result<map<string, OutputValue>, ShapeError>)
      requires Valid()
      requires numHeads > 0 && |D| > 0 && IsMatrix(D, |D|, numHeads)
      requires alpha != 0.0 ==> IsMatrix(softmaxed, |D|, numHeads)
      requires labels.Some? ==> |labels.value| == |D|
      modifies this
      ensures Valid()
      ensures contextVectors == old(contextVectors)
      ensures r.Err? <==> !Expands(bankDim, encodingDim)
      ensures r.Err? ==> r.error == ExpandMismatch(bankDim, encodingDim)
      ensures r.Ok? ==>
                r.value.Keys == {"loss", "anomaly_scores"} + (if tokenIds.Some? then {"token_ids"} else {})
      ensures r.Ok? ==> r.value["loss"] == LossValue(ForwardLoss(D, numHeads, labels, softmaxed,
        alpha, lambda, trainWithoutAnomaly, anomalyLabelIndex, contextVectors, bankDim))
      ensures r.Ok? ==> r.value["anomaly_scores"] == Scores(AnomalyScores(D))
      ensures r.Ok? && tokenIds.Some? ==> r.value["token_ids"] == TokenIds(tokenIds.value)
      ensures r.Ok? && labels.Some? ==>
        aucPredictions == old(aucPredictions) + AnomalyScores(D) &&
        aucGoldLabels == old(aucGoldLabels) + BinaryLabels(labels.value, anomalyLabelIndex)
      ensures r.Err? || labels.None? ==>
        aucPredictions == old(aucPredictions) && aucGoldLabels == old(aucGoldLabels)
    {
      if !Expands(bankDim, encodingDim) {
        return Err(ExpandMismatch(bankDim, encodingDim));
      }
      var loss := ForwardLoss(D, numHeads, labels, softmaxed, alpha, lambda, trainWithoutAnomaly,
                              anomalyLabelIndex, contextVectors, bankDim);
      var scores := AnomalyScores(D);
      var output: map<string, OutputValue> := map[];
      output := output["loss" := LossValue(loss)];
      output := output["anomaly_scores" := Scores(scores)];
      if tokenIds.Some? {
        output := output["token_ids" := TokenIds(tokenIds.value)];
      }
      if labels.Some? {
        var binary := BinaryLabels(labels.value, anomalyLabelIndex);
        aucPredictions := aucPredictions + scores;
        aucGoldLabels := aucGoldLabels + binary;
      }
      return Ok(output);
    }
  }
}
