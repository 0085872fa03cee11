# CVDD in Dafny

A model of the core of CVDD (Context Vector Data Description), a text anomaly
detector built on AllenNLP. The model covers four parts of the system:

- **Scoring and loss** (`cvdd_scoring.dfy`, module `CvddScoring`). This is the
  arithmetic of `CVDD.forward` from the per-head distance matrix `D`
  (batch × heads) onward:
  - the head weights `sigmas` and the per-example loss term `batched_loss`;
  - the loss policy, a masked mean over non-anomalous examples or the full mean;
  - the orthogonality penalty `mean((C·Cᵀ − I)²)` and its gating on `lambda`;
  - the anomaly scores, and the binary labels fed to the AUC metric.

  All of it is over exact `real`s.
- **The model object** (`cvdd_model.dfy`, module `CvddModel`). Class `Model`
  holds the configuration, the context-vector bank and the AUC accumulator.
  `Model.Create` runs the construction-time dimension checks. `Model.Forward`
  builds the output dictionary and feeds the accumulator.
  `MakeOutputHumanReadable` replaces `token_ids` by `tokens` in an output
  dictionary.
- **The one-class dataset reader** (`one_class_reader.dfy`, module
  `OneClassReader`). It covers:
  - label normalisation at construction;
  - the per-row decision of `_read`: raise with a 1-based line number, keep
    with a label mapped to `normal`/`anomalous`, keep unlabelled, or skip;
  - the fields `text_to_instance` builds.
- **The threshold predictor** (`anomaly_detector.dfy`, module
  `AnomalyDetector`). `detect_anomaly` sets the `anomaly` flag. The batch
  prediction applies it element by element.
- **The stopword preprocessor** (`stopwords.dfy`, module `Stopwords`). It
  splits on whitespace as Python's `str.split()` does, drops empty tokens and
  stopwords, and joins the rest with single spaces.

`wrappers.dfy` holds the `Option` and `Result` types the modules share.

Interfaces to code outside the model are parameters:

- the distance matrix `D`;
- the head softmax when `distance_weight` is not 0;
- the random draws of `torch.rand`;
- the vocabulary: the anomaly label's index, and an id-to-token map;
- the reader's tokenizer and its parsed JSON rows;
- NLTK's default stopword list.

Behaviour of the code worth noting:

- **The bank's shape.** The bank is created with shape (1, heads, context-encoder
  *input* dim) and then expanded to the context encoder's *output* dim. So
  construction does not reject differing dims. Instead a forward pass fails at
  `expand`, unless the two dims are equal or the bank's dim is 1, because
  `expand` broadcasts a size-1 axis. `Model.Forward` returns that error.
- **An all-anomalous batch.** Under the exclusion policy, the loss for such a
  batch is whatever AllenNLP's `masked_mean` returns for a zero count. That
  code is not part of this model, so the loss is left undetermined there
  (`None`) and nothing is asserted about its value.
- **A missing or incomparable score.** When a threshold is set,
  `detect_anomaly` raises on a missing score (`KeyError`) and on a score that
  Python cannot compare with a number (`TypeError`). A boolean score compares
  as 0 or 1.

## Model

| member | source | states |
|---|---|---|
| CvddModel.CheckDimensions | cvdd/models/cvdd.py:37-48 | Construction is accepted exactly when the embedder's output dim equals the context encoder's input dim and the context encoder's output dim equals the attention encoder's input dim; otherwise the first mismatching pair is reported with its names |
| CvddModel.Model.Create | cvdd/models/cvdd.py:37-85 | Fails with the dimension error exactly when the checks fail. Otherwise the model holds the given anomaly index, distance weight, lambda and exclusion flag; the bank has heads × context-input-dim entries drawn as `(u − 0.5)·2`; and the AUC accumulator is empty |
| CvddModel.Model.constructor | cvdd/models/cvdd.py:50-85 | Stores the configuration, builds the bank from the draws and starts with an empty AUC accumulator |
| CvddModel.InitialBank | cvdd/models/cvdd.py:61-74 | The bank maps each draw `u` to `(u − 0.5)·2`, keeping the draws' shape: one vector per head, of the context encoder's input dim |
| CvddModel.InitialBankRange | cvdd/models/cvdd.py:61-74 | Every initial context-vector coordinate lies in [−1, 1) |
| CvddModel.Expands | cvdd/models/cvdd.py:122-124 | Computes whether `expand` accepts the bank: its last axis equals the encoding dim, or has size 1 and is broadcast |
| CvddModel.Model.Forward | cvdd/models/cvdd.py:90-162 | Fails exactly when the bank cannot be expanded to the encoding dim, and then changes nothing. Otherwise: the output holds `loss`, `anomaly_scores`, and `token_ids` exactly when ids were given; the bank is unchanged; the AUC accumulator gains the scores and binary labels exactly when labels are given |
| CvddScoring.AnomalyScores | cvdd/models/cvdd.py:148 | One score per example, which times the number of heads is the total of that example's distances: the mean over heads |
| CvddScoring.ScoreWithinDistanceRange | cvdd/models/cvdd.py:148 | Each example's anomaly score lies within the range of its own per-head distances |
| CvddScoring.HeadWeights | cvdd/models/cvdd.py:131 | One weight per example and head. With distance weight 0 every weight is exactly 1/H, so each example's weights are positive and sum to 1; otherwise the weights are the given softmax |
| CvddScoring.BatchedLoss | cvdd/models/cvdd.py:134 | One loss term per example, in batch order: the head-weighted sum of its distances |
| CvddScoring.DefaultLossTermIsScore | cvdd/models/cvdd.py:131-134 | With distance weight 0 the head weights are uniform, so each example's loss term equals its anomaly score |
| CvddScoring.LossMask | cvdd/models/cvdd.py:136 | An example takes part in the masked loss exactly when its label is not the anomaly index |
| CvddScoring.MaskedMean | cvdd/models/cvdd.py:137 | Computes the zero-filled sum over the number of set mask entries, and is undetermined (`None`) when that number is 0 |
| CvddScoring.MaskedMeanIsMeanOfKept | cvdd/models/cvdd.py:137 | The masked mean is defined exactly when some example is kept, and is then the mean of the kept loss terms |
| CvddScoring.KeptEmptyIffNoneKept | cvdd/models/cvdd.py:136-137 | No entry is kept exactly when no mask entry is set |
| CvddScoring.MaskFillSumsKept | cvdd/models/cvdd.py:137 | Zero-filling the masked entries sums to the sum of the kept entries, and the mask count is the number of kept entries |
| CvddScoring.MaskFillIgnoresMasked | cvdd/models/cvdd.py:137 | The zero-filled vector does not depend on the masked-out entries |
| CvddScoring.MaskFillAllKept | cvdd/models/cvdd.py:137 | With nothing masked, zero-filling is the identity and every entry counts |
| CvddScoring.DataLoss | cvdd/models/cvdd.py:135-139 | Computes the data loss: the masked mean under the exclusion policy with labels given, the full-batch mean otherwise |
| CvddScoring.DataLossPolicy | cvdd/models/cvdd.py:135-139 | Without the policy or without labels the data loss is the full mean; with both it is the masked mean over non-anomalous examples |
| CvddScoring.DataLossIgnoresAnomalous | cvdd/models/cvdd.py:135-139 | Under the policy, the loss terms of anomalous-labelled examples do not affect the data loss |
| CvddScoring.DataLossWithoutAnomaliesIsFullMean | cvdd/models/cvdd.py:135-139 | A batch with no anomalous labels gets the full-batch mean under either policy |
| CvddScoring.Penalty | cvdd/models/cvdd.py:142-144 | Computes the mean of the squared entries of `C·Cᵀ − I` over all H × H entries |
| CvddScoring.RowDeviationZeroIffIdentityRow | cvdd/models/cvdd.py:142-144 | Each row of squared deviations sums to a non-negative value, which is 0 exactly when that row of `C·Cᵀ` equals the identity's row |
| CvddScoring.PenaltyZeroIffOrthonormal | cvdd/models/cvdd.py:142-144 | The penalty is never negative, and it is 0 exactly when `C·Cᵀ` is the identity |
| CvddScoring.DuplicateContextVectorsPenalised | cvdd/models/cvdd.py:142-144 | A bank with two equal context vectors has a strictly positive penalty |
| CvddScoring.TotalLoss | cvdd/models/cvdd.py:141-145 | Adds lambda times the penalty to a determined data loss when lambda is nonzero, and leaves the loss as it is otherwise |
| CvddScoring.PenaltyGating | cvdd/models/cvdd.py:141-145 | With lambda 0 the loss is the data loss. With a positive lambda the penalty never lowers the loss, and leaves it unchanged exactly for an orthonormal bank |
| CvddModel.ForwardLoss | cvdd/models/cvdd.py:131-145 | Composes the forward loss: head weights, loss terms, the data-loss policy and the gated penalty, in that order |
| CvddModel.UnweightedUnpenalisedLossIsMeanScore | cvdd/models/cvdd.py:131-145 | With distance weight 0, no exclusion and no penalty, the loss is the mean anomaly score |
| CvddModel.DefaultConfigurationLoss | cvdd/models/cvdd.py:27-29 | With the constructor's defaults (distance weight 0, lambda 1.0, exclusion on), the loss is the penalty plus the mean anomaly score: over the whole batch without labels, over the non-anomalous examples with labels, and undetermined when all are anomalous |
| CvddModel.LossUndeterminedOnlyForAllAnomalous | cvdd/models/cvdd.py:135-145 | The loss is determined unless the policy is on, labels are given and every example is anomalous |
| CvddScoring.BinaryLabels | cvdd/models/cvdd.py:159 | The binary label is 0 or 1, and it is 1 exactly for examples labelled with the anomaly index |
| CvddScoring.PositivesAreExcludedFromLoss | cvdd/models/cvdd.py:136-159 | The examples the AUC counts as positive are exactly those the loss mask excludes |
| CvddModel.MakeOutputHumanReadable | cvdd/models/cvdd.py:164-180 | Without `token_ids` the dictionary is returned unchanged. Otherwise it succeeds exactly when every id is in the vocabulary, and `token_ids` is replaced by `tokens`, decoded instance by instance; an unknown id is reported |
| CvddModel.DecodeIds | cvdd/models/cvdd.py:169-177 | One token list per instance, as long as its ids, each token the vocabulary's entry for its id |
| CvddModel.DecodeIdsRoundTrip | cvdd/models/cvdd.py:169-177 | Decoding keeps the shape, and encoding the tokens back with a consistent token-to-index map returns the ids |
| OneClassReader.LabelList | cvdd/datast_readers/one_class_classification.py:31-32 | A single label becomes a one-element list; a list is kept |
| OneClassReader.AsWrittenFailsOnAnomalousList | cvdd/datast_readers/one_class_classification.py:33-37 | As written, construction fails with an unbound `anormalous_labels` exactly when the anomalous labels are a list. For a single label it builds the intended reader |
| OneClassReader.AnomalousListCounterexample | cvdd/datast_readers/one_class_classification.py:33-37 | `normal_labels="pos"`, `anomalous_labels=["neg"]` fails as written; the intended reader keeps `["neg"]` |
| OneClassReader.NewReaderAsWritten | cvdd/datast_readers/one_class_classification.py:31-37 | The constructor as written: a single anomalous label gives a reader with a one-element list, and a list of them gives the unbound-local error |
| OneClassReader.NewReader | cvdd/datast_readers/one_class_classification.py:31-42 | Both label arguments are normalised to lists, and the keys and namespace are kept |
| OneClassReader.Get | cvdd/datast_readers/one_class_classification.py:51-52 | A missing key reads as null |
| OneClassReader.ConvertLabel | cvdd/datast_readers/one_class_classification.py:60-66 | A null label leaves the row unlabelled. A normal label becomes "normal", tested first. An anomalous label that is not normal becomes "anomalous". Any other label skips the row |
| OneClassReader.InstanceOf | cvdd/datast_readers/one_class_classification.py:73-94 | An instance has the `tokens` and `metadata` fields, with the text in the metadata. A label adds a `label` field in the label namespace and a metadata label; without one, neither is present |
| OneClassReader.TextToInstance | cvdd/datast_readers/one_class_classification.py:78-94 | Filling the dictionaries key by key builds that instance |
| OneClassReader.RowStep | cvdd/datast_readers/one_class_classification.py:51-71 | A row fails exactly when its text is missing, and the error carries line number `line_num + 1`. It is skipped exactly when its text is present and its label matches neither list. A kept row yields the instance of its text with the label `normal` or `anomalous` its label maps to, or with no label when it has none |
| OneClassReader.Outcomes | cvdd/datast_readers/one_class_classification.py:48-66 | Each row is decided on its own, at its 0-based position in the file |
| OneClassReader.Collect | cvdd/datast_readers/one_class_classification.py:48-71 | Follows the decisions in order: a kept row's instance is appended, a skipped row is passed over, and the first failing row ends the read with its error |
| OneClassReader.ReadRows | cvdd/datast_readers/one_class_classification.py:44-71 | Computes what reading the rows produces: the decisions of every row, followed in file order |
| OneClassReader.Read | cvdd/datast_readers/one_class_classification.py:44-71 | The loop yields, skips and raises row by row, in file order, as the row decisions say |
| OneClassReader.CollectStopsAtFirstFailure | cvdd/datast_readers/one_class_classification.py:54-57 | The read ends with an error exactly when some decision fails, and the error is that of the first failing decision |
| OneClassReader.ReadFailsAtFirstMissingText | cvdd/datast_readers/one_class_classification.py:54-57 | Reading fails exactly when some row lacks its text, whatever the labels. It reports the first such row and its 1-based line number |
| OneClassReader.KeptIndicesIncrease | cvdd/datast_readers/one_class_classification.py:48-71 | Instances come from strictly increasing row positions, so they are in file order and never outnumber the rows |
| OneClassReader.KeptIndexProducesInstance | cvdd/datast_readers/one_class_classification.py:59-71 | The instance at a given position is the one its row's decision produces |
| OneClassReader.KeptIndicesProduceInstances | cvdd/datast_readers/one_class_classification.py:59-71 | Every instance is the one its row's decision produces |
| OneClassReader.KeptDecisionIsListed | cvdd/datast_readers/one_class_classification.py:59-71 | Without an error, a given row that its decision keeps yields an instance |
| OneClassReader.KeptIndicesComplete | cvdd/datast_readers/one_class_classification.py:59-71 | Without an error, every row that its decision keeps yields an instance |
| OneClassReader.ReadKeepsRowsInOrder | cvdd/datast_readers/one_class_classification.py:48-71 | A read's instances are, in file order, those of the rows its decisions keep, and never more than the rows. Without an error, none of the kept rows is missing |
| OneClassReader.CollectAllKept | cvdd/datast_readers/one_class_classification.py:48-71 | When every decision keeps its row, there is one instance per row and no error |
| OneClassReader.AllAcceptedRowsAreRead | cvdd/datast_readers/one_class_classification.py:48-71 | When every row has a text and an absent or listed label, the read succeeds with one instance per row |
| OneClassReader.ExampleFileScenario | tests/dataset_readers/test_one_class_classification.py:4-11 | With `pos`/`neg`, rows labelled pos, neg and an unknown label plus an unlabelled row read as three instances: normal, anomalous and unlabelled |
| AnomalyDetector.Comparable | cvdd/predictors/anomaly_detector.py:26 | A number compares as itself and a boolean as 1 or 0; any other value cannot be compared |
| AnomalyDetector.Detected | cvdd/predictors/anomaly_detector.py:24-27 | Without a threshold the dictionary is unchanged. With one, only `anomaly` is written, set to score > threshold, where a boolean score compares as 0 or 1; every other key keeps its value. A missing score, or one that is neither a number nor a boolean, is an error |
| AnomalyDetector.DetectAnomaly | cvdd/predictors/anomaly_detector.py:24-27 | The in-place assignment produces exactly that dictionary |
| AnomalyDetector.FlagIsStrict | cvdd/predictors/anomaly_detector.py:26 | A score equal to the threshold is not anomalous |
| AnomalyDetector.DetectIdempotent | cvdd/predictors/anomaly_detector.py:24-27 | Flagging an already flagged dictionary again changes nothing |
| AnomalyDetector.PredictBatch | cvdd/predictors/anomaly_detector.py:34-37 | A successful batch has one output per input; the first failing element ends it |
| AnomalyDetector.PredictBatchIsElementwise | cvdd/predictors/anomaly_detector.py:34-37 | The batch succeeds exactly when every element does, and then has one output per input, in order, each the flagged input |
| AnomalyDetector.PredictBatchWithoutThreshold | cvdd/predictors/anomaly_detector.py:34-37 | Without a threshold the batch is returned as it is |
| AnomalyDetector.ThresholdScenario | tests/predictors/test_anomaly_detector.py:5-15 | With threshold 0.3 the output has a boolean `anomaly` entry, true for score 0.5; boolean scores `True` and `False` are flagged and not flagged; any other value is an error; without a threshold there is no `anomaly` key |
| Stopwords.NewPreprocessor | cvdd/preprocessors/stopwords.py:17-18 | An omitted or empty stopword list falls back to the default list, and a given list becomes its set. An omitted tokenizer falls back to the whitespace tokenizer, and a given one is kept |
| Stopwords.Tokenize | cvdd/preprocessors/stopwords.py:23 | Computes the token texts: `str.split()` for the whitespace tokenizer, the given function otherwise |
| Stopwords.Filter | cvdd/preprocessors/stopwords.py:21-25 | A token is kept exactly when it was an input token, is non-empty and is not a stopword |
| Stopwords.Apply | cvdd/preprocessors/stopwords.py:20-26 | Computes `__call__`: tokenise, filter, then join with single spaces |
| Stopwords.Join | cvdd/preprocessors/stopwords.py:26 | Computes `" ".join`: the words with one space between neighbours |
| Stopwords.FilterAppend | cvdd/preprocessors/stopwords.py:21-25 | Filtering distributes over concatenation, so kept tokens stay in input order |
| Stopwords.EmptyIffOnlyStopwords | cvdd/preprocessors/stopwords.py:21-26 | The output is the empty string exactly when every input token is empty or a stopword |
| Stopwords.Split | cvdd/preprocessors/stopwords.py:18 | Whitespace tokenization yields only non-empty tokens without whitespace |
| Stopwords.SplitJoin | cvdd/preprocessors/stopwords.py:26 | Splitting a single-space join of whitespace-free words gives the words back |
| Stopwords.PreprocessIdempotent | cvdd/preprocessors/stopwords.py:17-26 | With the whitespace tokenizer, preprocessing twice equals preprocessing once |

## Left out

- Cosine distance, masked attention softmax and the `bmm` aggregation (cvdd/models/cvdd.py:97-129). These are floating-point work inside torch and xallennlp. The distance matrix is an input, and cvdd/modules/distances.py is not part of this model.
- CvddScoring.HeadWeights: for a nonzero distance weight, the softmax over heads needs `exp`. Its result is an input, and only its shape is stated.
- The AUC metric itself and `get_metrics` (cvdd/models/cvdd.py:182-184). They are AllenNLP code. The model keeps only the scores and binary labels fed to the accumulator.
- CvddScoring.MaskedMean: for a batch whose examples are all anomalous, AllenNLP's `masked_mean` decides the value. It is left undetermined (`None`) rather than given a value.
- Model.Forward requires a non-empty batch and at least one head. Torch's mean over an empty axis is NaN, which reals do not model.
- The values of `torch.rand` and `InitializerApplicator` (cvdd/models/cvdd.py:64, 87-88) are random or framework initialisation. The draws are a parameter of the constructor.
- Training updates of the context vectors are framework machinery. Forward leaves the bank unchanged.
- Vocabulary lookups (cvdd/models/cvdd.py:80-83, 172-174) are a given index and a given id-to-token map.
- Opening and parsing the file (`cached_path`, `open`, `json.loads`). Rows that are not JSON objects are left out too. The reader receives parsed rows.
- Sharding is the single-worker identity.
- OneClassReader.Read requires every present text to be a string, as `text_to_instance` expects. What spaCy does with a non-string text is not modelled.
- Tokenizers (spaCy, or a custom tokenizer) and token indexers are parameters. The indexers are not part of the instance model.
- Python's generator laziness. `Read` returns the instances yielded before an error, together with that error.
- CvddModel.MakeOutputHumanReadable returns the rewritten dictionary as a value. The source adds `tokens` and deletes `token_ids` in the caller's dictionary (cvdd/models/cvdd.py:178-179), and that aliasing is not modelled.
- AnomalyDetector.DetectAnomaly returns the updated dictionary as a value. The aliasing of Python's in-place update on the caller's dictionary is not modelled.
- `predict_instance` (cvdd/predictors/anomaly_detector.py:29-32) is the one-element case of `Detected`.
- `_json_to_instance` (cvdd/predictors/anomaly_detector.py:39-49) and the model's own prediction machinery are framework code.
- NaN scores and float rounding in the threshold comparison.
- `nltk.download()` and the NLTK corpus. The default stopword list is a parameter.
- cvdd/modules/feedforward_encoder.py and the scripts under scripts/ are not part of this model.

## Findings

| source | as written | input that shows it | evidently intended | confidence | as-written member | corrected member |
|---|---|---|---|---|---|---|
| cvdd/datast_readers/one_class_classification.py:33-37 | A single anomalous label is wrapped into the misspelled local `anormalous_labels`, which line 37 then reads unconditionally | `anomalous_labels=["neg"]` (any list) raises an unbound-local error at construction | Wrap `anomalous_labels` like `normal_labels`, and keep a list as it is | high, not executed | OneClassReader.AsWrittenFailsOnAnomalousList | OneClassReader.NewReader |
