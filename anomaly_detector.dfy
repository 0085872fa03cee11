/**
 * The threshold predictor (cvdd/predictors/anomaly_detector.py): the
 * optional `anomaly` flag written into each prediction dictionary.
 *
 * A prediction is a dictionary of JSON values after sanitising, in which a
 * score is a number; the model's own forward pass is not part of this module.
 */
module AnomalyDetector {
  import opened Wrappers

  /** A JSON value as far as the predictor tells values apart. */
  datatype Json = Num(x: real) | Bool(b: bool) | Other

  type JsonDict = map<string, Json>

  /** `KeyError` for a missing score, `TypeError` for a score that is not a number. */
  datatype DetectError = MissingKey(key: string) | NotComparable(value: Json)

  /** A predictor is configured once, with an optional threshold. */
  datatype Detector = Detector(threshold: Option<real>)

  const ScoreKey := "anomaly_scores"
  const FlagKey := "anomaly"

  /**
   * The number Python's `>` compares a score as: a number itself, and a
   * boolean as 0 or 1 (`bool` is a subclass of `int`); anything else raises.
   */
  function Comparable(v: Json): (r: Option<real>)
    ensures r.Some? <==> v.Num? || v.Bool?
    ensures v.Num? ==> r == Some(v.x)
    ensures v.Bool? ==> r.Some? && (r.value == 1.0 <==> v.b) && (r.value == 0.0 <==> !v.b)
  {
    match v
    case Num(x) => Some(x)
    case Bool(b) => Some(if b then 1.0 else 0.0)
    case Other => None
  }

  /**
   * What `detect_anomaly` turns `d` into: with no threshold the dictionary
   * itself; with one, the dictionary with `anomaly` set to whether the score
   * is strictly above the threshold.
   */
  function Detected(detector: Detector, d: JsonDict): (r: Result<JsonDict, DetectError>)
    ensures detector.threshold.None? ==> r == Ok(d)
    ensures detector.threshold.Some? ==>
      (r.Ok? <==> ScoreKey in d && (d[ScoreKey].Num? || d[ScoreKey].Bool?))
    ensures detector.threshold.Some? && ScoreKey !in d ==> r == Err(MissingKey(ScoreKey))
    ensures detector.threshold.Some? && ScoreKey in d && d[ScoreKey] == Other ==>
      r == Err(NotComparable(Other))
    ensures r.Ok? && detector.threshold.Some? ==>
      r.value.Keys == d.Keys + {FlagKey} &&
      r.value[FlagKey] == Bool(Comparable(d[ScoreKey]).value > detector.threshold.value) &&
      forall k :: k in d && k != FlagKey ==> r.value[k] == d[k]
  {
    match detector.threshold
    case None => Ok(d)
    case Some(t) =>
      if ScoreKey !in d then Err(MissingKey(ScoreKey))
      else
        match Comparable(d[ScoreKey])
        case None => Err(NotComparable(d[ScoreKey]))
        case Some(x) => Ok(d[FlagKey := Bool(x > t)])
  }

  /** `detect_anomaly`: assigns the flag into the dictionary it was given. */
  method DetectAnomaly(detector: Detector, jsonDict: JsonDict) returns (r: Result<JsonDict, DetectError>)
    ensures r == Detected(detector, jsonDict)
  {
    if detector.threshold.None? {
      return Ok(jsonDict);
    }
    if ScoreKey !in jsonDict {
      return Err(MissingKey(ScoreKey));
    }
    var score := Comparable(jsonDict[ScoreKey]);
    if score.None? {
      return Err(NotComparable(jsonDict[ScoreKey]));
    }
    var d := jsonDict;
    d := d[FlagKey := Bool(score.value > detector.threshold.value)];
    return Ok(d);
  }

  /** A score equal to the threshold is not flagged; only a strictly larger one is. */
  lemma FlagIsStrict(t: real, d: JsonDict)
    requires ScoreKey in d && d[ScoreKey].Num?
    ensures Detected(Detector(Some(t)), d).Ok?
    ensures Detected(Detector(Some(t)), d).value[FlagKey] == Bool(d[ScoreKey].x > t)
    ensures d[ScoreKey].x == t ==> Detected(Detector(Some(t)), d).value[FlagKey] == Bool(false)
  {
  }

  /**
   * Flagging twice with the same threshold gives what flagging once gives:
   * the flag written does not affect the score it is computed from.
   */
  lemma DetectIdempotent(detector: Detector, d: JsonDict)
    requires Detected(detector, d).Ok?
    ensures Detected(detector, Detected(detector, d).value) == Detected(detector, d)
  {
    var once := Detected(detector, d).value;
    if detector.threshold.Some? {
      assert once[ScoreKey] == d[ScoreKey];
      assert once[FlagKey := once[FlagKey]] == once;
    }
  }

  /**
   * `[self.detect_anomaly(x) for x in outputs]`: the first failure ends the
   * comprehension.
   */
  function PredictBatch(detector: Detector, outputs: seq<JsonDict>): (r: Result<seq<JsonDict>, DetectError>)
    ensures r.Ok? ==> |r.value| == |outputs|
  {
    if outputs == [] then Ok([])
    else
      match Detected(detector, outputs[0])
      case Err(e) => Err(e)
      case Ok(first) =>
        match PredictBatch(detector, outputs[1..])
        case Err(e) => Err(e)
        case Ok(rest) => Ok([first] + rest)
  }

  /**
   * The batch succeeds exactly when every element does, and then holds one
   * output per input, in the same order, each the flagged input.
   */
  lemma {:induction false} PredictBatchIsElementwise(detector: Detector, outputs: seq<JsonDict>)
    ensures PredictBatch(detector, outputs).Ok? <==>
      forall i :: 0 <= i < |outputs| ==> Detected(detector, outputs[i]).Ok?
    ensures PredictBatch(detector, outputs).Ok? ==>
      |PredictBatch(detector, outputs).value| == |outputs| &&
      forall i :: 0 <= i < |outputs| ==>
        PredictBatch(detector, outputs).value[i] == Detected(detector, outputs[i]).value
    decreases |outputs|
  {
    if outputs != [] {
      var tail := outputs[1..];
      PredictBatchIsElementwise(detector, tail);
      if forall i :: 0 <= i < |tail| ==> Detected(detector, tail[i]).Ok? {
        if Detected(detector, outputs[0]).Ok? {
          forall i | 0 <= i < |outputs| ensures Detected(detector, outputs[i]).Ok? {
            if i > 0 {
              assert outputs[i] == tail[i - 1];
            }
          }
        }
      } else {
        var i :| 0 <= i < |tail| && !Detected(detector, tail[i]).Ok?;
        assert outputs[i + 1] == tail[i];
      }
      if PredictBatch(detector, outputs).Ok? {
        forall i | 0 <= i < |outputs|
          ensures PredictBatch(detector, outputs).value[i] == Detected(detector, outputs[i]).value
        {
          if i > 0 {
            assert outputs[i] == tail[i - 1];
          }
        }
      }
    }
  }

  /** Without a threshold a batch passes through untouched. */
  lemma {:induction false} PredictBatchWithoutThreshold(outputs: seq<JsonDict>)
    ensures PredictBatch(Detector(None), outputs) == Ok(outputs)
    decreases |outputs|
  {
    if outputs != [] {
      PredictBatchWithoutThreshold(outputs[1..]);
      assert [outputs[0]] + outputs[1..] == outputs;
    }
  }

  /**
   * With threshold 0.3 a prediction that carries a score gains a boolean
   * `anomaly` entry, true for a score of 0.5; a boolean score `True` compares
   * as 1 and is flagged, `False` as 0 and is not; a score that is neither is
   * an error; without a threshold no entry is added.
   */
  lemma ThresholdScenario(score: real)
    ensures var out := Detected(Detector(Some(0.3)), map[ScoreKey := Num(score)]);
      out.Ok? && FlagKey in out.value && out.value[FlagKey].Bool? &&
      (out.value[FlagKey].b <==> score > 0.3)
    ensures Detected(Detector(Some(0.3)), map[ScoreKey := Num(0.5)]).value[FlagKey] == Bool(true)
    ensures Detected(Detector(Some(0.3)), map[ScoreKey := Bool(true)]).value[FlagKey] == Bool(true)
    ensures Detected(Detector(Some(0.3)), map[ScoreKey := Bool(false)]).value[FlagKey] == Bool(false)
    ensures Detected(Detector(Some(0.3)), map[ScoreKey := Other]) == Err(NotComparable(Other))
    ensures FlagKey !in Detected(Detector(None), map[ScoreKey := Num(score)]).value
  {
  }
}
