/**
 * The one-class classification dataset reader
 * (cvdd/datast_readers/one_class_classification.py): label normalisation at
 * construction, the per-row decision loop of `_read` and the fields built by
 * `text_to_instance`.
 *
 * A JSON-lines file is given as its parsed rows; the tokenizer is a
 * parameter; distributed sharding is the identity of a single worker.
 */
module OneClassReader {
  import opened Wrappers

  /** A JSON value as far as the reader tells values apart. */
  datatype JsonValue = Null | Str(s: string) | NonString

  /** One parsed line of the input file. */
  type Row = map<string, JsonValue>

  /** `row.get(key)`: a missing key reads as `None`, like an explicit null. */
  function Get(row: Row, key: string): (v: JsonValue)
    ensures key !in row ==> v == Null
    ensures key in row ==> v == row[key]
  {
    if key in row then row[key] else Null
  }

  /** A constructor argument that is either one label or a list of them. */
  datatype LabelsArg = One(name: string) | Many(names: seq<string>)

  /** The configuration a reader keeps after construction. */
  datatype Reader = Reader(
    normalLabels: seq<string>,
    anomalousLabels: seq<string>,
    textKey: string,
    labelKey: string,
    labelNamespace: string)

  const DefaultTextKey := "text"
  const DefaultLabelKey := "label"
  const DefaultLabelNamespace := "labels"

  /** The error of reading a local name that was never assigned. */
  datatype ConstructionError = UnboundLocal(name: string)

  /** `[label]` for a single label, the list itself otherwise. */
  function LabelList(arg: LabelsArg): (labels: seq<string>)
    ensures arg.One? ==> labels == [arg.name]
    ensures arg.Many? ==> labels == arg.names
  {
    match arg
    case One(l) => [l]
    case Many(ls) => ls
  }

  /**
   * The constructor as written: a single anomalous label is wrapped into the
   * misspelled local `anormalous_labels`, which is then read unconditionally,
   * so a list of anomalous labels leaves it unbound.
   */
  function NewReaderAsWritten(normal: LabelsArg, anomalous: LabelsArg, textKey: string,
                              labelKey: string, labelNamespace: string): (r: Result<Reader, ConstructionError>)
  {
    var normalLabels := LabelList(normal);
    match anomalous
    case One(l) => Ok(Reader(normalLabels, [l], textKey, labelKey, labelNamespace))
    case Many(_) => Err(UnboundLocal("anormalous_labels"))
  }

  /** The constructor as intended: both arguments are normalised the same way. */
  function NewReader(normal: LabelsArg, anomalous: LabelsArg, textKey: string,
                     labelKey: string, labelNamespace: string): (r: Reader)
    ensures r.normalLabels == LabelList(normal) && r.anomalousLabels == LabelList(anomalous)
    ensures r.textKey == textKey && r.labelKey == labelKey && r.labelNamespace == labelNamespace
  {
    Reader(LabelList(normal), LabelList(anomalous), textKey, labelKey, labelNamespace)
  }

  /**
   * The constructor as written fails exactly for a list of anomalous labels,
   * and otherwise builds the intended reader.
   */
  lemma AsWrittenFailsOnAnomalousList(normal: LabelsArg, anomalous: LabelsArg, textKey: string,
                                      labelKey: string, labelNamespace: string)
    ensures NewReaderAsWritten(normal, anomalous, textKey, labelKey, labelNamespace).Err? <==> anomalous.Many?
    ensures anomalous.Many? ==>
      NewReaderAsWritten(normal, anomalous, textKey, labelKey, labelNamespace) == Err(UnboundLocal("anormalous_labels"))
    ensures anomalous.One? ==>
      NewReaderAsWritten(normal, anomalous, textKey, labelKey, labelNamespace)
        == Ok(NewReader(normal, anomalous, textKey, labelKey, labelNamespace))
  {
  }

  /** A concrete input that shows it: one normal label and a one-element list of anomalous labels. */
  lemma AnomalousListCounterexample()
    ensures NewReaderAsWritten(One("pos"), Many(["neg"]), DefaultTextKey, DefaultLabelKey, DefaultLabelNamespace).Err?
    ensures NewReader(One("pos"), Many(["neg"]), DefaultTextKey, DefaultLabelKey, DefaultLabelNamespace).anomalousLabels == ["neg"]
  {
  }

  /** What the label of a row decides about it. */
  datatype LabelDecision = Unlabelled | Labelled(name: string) | SkipRow

  /**
   * Normal labels are tested first, then anomalous ones; a label in neither
   * list, or one that is not a string, drops the row.
   */
  function ConvertLabel(reader: Reader, tag: JsonValue): (d: LabelDecision)
    ensures d.Unlabelled? <==> tag.Null?
    ensures d.Labelled? ==> d.name in {"normal", "anomalous"}
    ensures d == Labelled("normal") <==> tag.Str? && tag.s in reader.normalLabels
    ensures d == Labelled("anomalous") <==>
      tag.Str? && tag.s !in reader.normalLabels && tag.s in reader.anomalousLabels
    ensures d.SkipRow? <==>
              tag.NonString? || (tag.Str? && tag.s !in reader.normalLabels && tag.s !in reader.anomalousLabels)
  {
    match tag
    case Null => Unlabelled
    case Str(s) =>
      if s in reader.normalLabels then Labelled("normal")
      else if s in reader.anomalousLabels then Labelled("anomalous")
      else SkipRow
    case NonString => SkipRow
  }

  /** The fields an instance can carry. */
  datatype Field =
    | TextField(tokens: seq<string>)
    | LabelField(value: string, namespace: string)
    | MetadataField(metadata: map<string, string>)

  datatype Instance = Instance(fields: map<string, Field>)

  /** The instance `text_to_instance` builds for a text and an optional label. */
  function InstanceOf(reader: Reader, text: string, tag: Option<string>,
                      tokenize: string -> seq<string>): (inst: Instance)
    ensures inst.fields.Keys == {"tokens", "metadata"} + (if tag.Some? then {"label"} else {})
    ensures inst.fields["tokens"] == TextField(tokenize(text))
    ensures inst.fields["metadata"].MetadataField?
    ensures inst.fields["metadata"].metadata.Keys == {"text"} + (if tag.Some? then {"label"} else {})
    ensures inst.fields["metadata"].metadata["text"] == text
    ensures tag.Some? ==> inst.fields["label"] == LabelField(tag.value, reader.labelNamespace)
    ensures tag.Some? ==> inst.fields["metadata"].metadata["label"] == tag.value
  {
    var metadata := if tag.Some? then map["text" := text, "label" := tag.value] else map["text" := text];
    var fields := map["tokens" := TextField(tokenize(text)), "metadata" := MetadataField(metadata)];
    if tag.Some? then
      Instance(fields["label" := LabelField(tag.value, reader.labelNamespace)])
    else
      Instance(fields)
  }

  /** `text_to_instance`: fills the field and metadata dictionaries one key at a time. */
  method TextToInstance(reader: Reader, text: string, tag: Option<string>,
                        tokenize: string -> seq<string>) returns (inst: Instance)
    ensures inst == InstanceOf(reader, text, tag, tokenize)
  {
    var tokens := tokenize(text);
    var fields: map<string, Field> := map[];
    fields := fields["tokens" := TextField(tokens)];
    var metadata: map<string, string> := map[];
    metadata := metadata["text" := text];
    if tag.Some? {
      fields := fields["label" := LabelField(tag.value, reader.labelNamespace)];
      metadata := metadata["label" := tag.value];
    }
    fields := fields["metadata" := MetadataField(metadata)];
    inst := Instance(fields);
  }

  /** The `ValueError` for a row without text, with its 1-based line number. */
  datatype ReadError = InvalidLineFormat(row: Row, lineNumber: nat)

  /** The text of a row is absent or null. */
  predicate TextMissing(reader: Reader, row: Row) {
    Get(row, reader.textKey).Null?
  }

  /** Every text present in the file is a string, as `text_to_instance` expects. */
  predicate TextsAreStrings(reader: Reader, rows: seq<Row>) {
    forall k :: 0 <= k < |rows| ==> !Get(rows[k], reader.textKey).NonString?
  }

  datatype RowOutcome = Keep(instance: Instance) | Skip | Fail(error: ReadError)

  /** The decision for one row at 0-based position `lineNum`: the text check comes first. */
  function RowStep(reader: Reader, row: Row, lineNum: nat, tokenize: string -> seq<string>): (o: RowOutcome)
    requires !Get(row, reader.textKey).NonString?
    ensures o.Fail? <==> TextMissing(reader, row)
    ensures o.Fail? ==> o.error == InvalidLineFormat(row, lineNum + 1)
    ensures o.Skip? <==> !TextMissing(reader, row) && ConvertLabel(reader, Get(row, reader.labelKey)).SkipRow?
    ensures o.Keep? ==>
      var d := ConvertLabel(reader, Get(row, reader.labelKey));
      o.instance == InstanceOf(reader, Get(row, reader.textKey).s,
                               if d.Labelled? then Some(d.name) else None, tokenize)
  {
    var text := Get(row, reader.textKey);
    if text.Null? then
      Fail(InvalidLineFormat(row, lineNum + 1))
    else
      match ConvertLabel(reader, Get(row, reader.labelKey))
      case SkipRow => Skip
      case Unlabelled => Keep(InstanceOf(reader, text.s, None, tokenize))
      case Labelled(l) => Keep(InstanceOf(reader, text.s, Some(l), tokenize))
  }

  /** The instances produced before the read stops, and the error it stops with, if any. */
  datatype ReadResult = ReadResult(instances: seq<Instance>, error: Option<ReadError>)

  /** The decision for each row, in file order. */
  function Outcomes(reader: Reader, rows: seq<Row>, tokenize: string -> seq<string>): (outs: seq<RowOutcome>)
    requires TextsAreStrings(reader, rows)
    ensures |outs| == |rows|
    ensures forall k :: 0 <= k < |rows| ==> outs[k] == RowStep(reader, rows[k], k, tokenize)
  {
    seq(|rows|, k requires 0 <= k < |rows| => RowStep(reader, rows[k], k, tokenize))
  }

  /**
   * Following the decisions in order: a kept row is yielded, a skipped row is
   * passed over, and a failing row ends the read with its error.
   */
  function Collect(outs: seq<RowOutcome>): ReadResult {
    if outs == [] then ReadResult([], None)
    else
      match outs[0]
      case Fail(e) => ReadResult([], Some(e))
      case Skip => Collect(outs[1..])
      case Keep(inst) =>
        var rest := Collect(outs[1..]);
        ReadResult([inst] + rest.instances, rest.error)
  }

  /** What reading the whole file produces. */
  function ReadRows(reader: Reader, rows: seq<Row>, tokenize: string -> seq<string>): ReadResult
    requires TextsAreStrings(reader, rows)
  {
    Collect(Outcomes(reader, rows, tokenize))
  }

  /**
   * `_read`: walks the rows in file order, skipping, yielding or raising for
   * each; the instances yielded before an error are part of the result.
   */
  method Read(reader: Reader, rows: seq<Row>, tokenize: string -> seq<string>)
    returns (instances: seq<Instance>, error: Option<ReadError>)
    requires TextsAreStrings(reader, rows)
    ensures ReadResult(instances, error) == ReadRows(reader, rows, tokenize)
  {
    ghost var outs := Outcomes(reader, rows, tokenize);
    instances := [];
    var lineNum := 0;
    while lineNum < |rows|
      invariant 0 <= lineNum <= |rows|
      invariant Collect(outs) ==
        ReadResult(instances + Collect(outs[lineNum..]).instances, Collect(outs[lineNum..]).error)
    {
      assert outs[lineNum..][1..] == outs[lineNum + 1..];
      var row := rows[lineNum];
      var text := Get(row, reader.textKey);
      var tag := Get(row, reader.labelKey);
      if text.Null? {
        return instances, Some(InvalidLineFormat(row, lineNum + 1));
      }
      var decision := ConvertLabel(reader, tag);
      if decision.SkipRow? {
        lineNum := lineNum + 1;
        continue;
      }
      var inst := TextToInstance(reader, text.s, if decision.Labelled? then Some(decision.name) else None, tokenize);
      instances := instances + [inst];
      lineNum := lineNum + 1;
    }
    assert outs[lineNum..] == [];
    return instances, None;
  }

  /** The read stops at the first failing decision, with that decision's error. */
  lemma {:induction false} CollectStopsAtFirstFailure(outs: seq<RowOutcome>)
    ensures Collect(outs).error.Some? <==> exists k :: 0 <= k < |outs| && outs[k].Fail?
    ensures Collect(outs).error.Some? ==>
      exists k :: 0 <= k < |outs| && outs[k] == Fail(Collect(outs).error.value) &&
        forall j :: 0 <= j < k ==> !outs[j].Fail?
    decreases |outs|
  {
    if outs != [] {
      var tail := outs[1..];
      CollectStopsAtFirstFailure(tail);
      if !outs[0].Fail? {
        if exists k :: 0 <= k < |outs| && outs[k].Fail? {
          var k :| 0 <= k < |outs| && outs[k].Fail?;
          assert tail[k - 1] == outs[k];
        }
        if Collect(outs).error.Some? {
          var k :| 0 <= k < |tail| && tail[k] == Fail(Collect(outs).error.value) &&
            forall j :: 0 <= j < k ==> !tail[j].Fail?;
          assert outs[k + 1] == tail[k];
          forall j | 0 <= j < k + 1 ensures !outs[j].Fail? {
            if j > 0 {
              assert outs[j] == tail[j - 1];
            }
          }
        }
      }
    }
  }

  /**
   * The read fails exactly when some row lacks its text, and then reports the
   * first such row with its 1-based line number, whatever the labels are.
   */
  lemma ReadFailsAtFirstMissingText(reader: Reader, rows: seq<Row>, tokenize: string -> seq<string>)
    requires TextsAreStrings(reader, rows)
    ensures ReadRows(reader, rows, tokenize).error.Some? <==>
      exists k :: 0 <= k < |rows| && TextMissing(reader, rows[k])
    ensures ReadRows(reader, rows, tokenize).error.Some? ==>
      var e := ReadRows(reader, rows, tokenize).error.value;
      var k := e.lineNumber - 1;
      0 <= k < |rows| && e.row == rows[k] && TextMissing(reader, rows[k]) &&
      forall j :: 0 <= j < k ==> !TextMissing(reader, rows[j])
  {
    var outs := Outcomes(reader, rows, tokenize);
    CollectStopsAtFirstFailure(outs);
    if exists k :: 0 <= k < |rows| && TextMissing(reader, rows[k]) {
      var k :| 0 <= k < |rows| && TextMissing(reader, rows[k]);
      assert outs[k].Fail?;
    }
    if ReadRows(reader, rows, tokenize).error.Some? {
      var e := ReadRows(reader, rows, tokenize).error.value;
      var k :| 0 <= k < |outs| && outs[k] == Fail(e) && forall j :: 0 <= j < k ==> !outs[j].Fail?;
      assert e.lineNumber == k + 1;
      forall j | 0 <= j < k ensures !TextMissing(reader, rows[j]) {
        assert !outs[j].Fail?;
      }
    }
  }

  /** `s` with every element raised by one. */
  function Shift(s: seq<nat>): (t: seq<nat>)
    ensures |t| == |s|
    ensures forall a :: 0 <= a < |s| ==> t[a] == s[a] + 1
  {
    seq(|s|, a requires 0 <= a < |s| => s[a] + 1)
  }

  /** Positions of the decisions whose instance the read yields. */
  function KeptIndices(outs: seq<RowOutcome>): seq<nat> {
    if outs == [] then []
    else
      match outs[0]
      case Fail(_) => []
      case Skip => Shift(KeptIndices(outs[1..]))
      case Keep(_) => [0] + Shift(KeptIndices(outs[1..]))
  }

  /**
   * One position per instance, strictly increasing and within the rows, so
   * there are never more instances than rows.
   */
  lemma {:induction false} KeptIndicesIncrease(outs: seq<RowOutcome>)
    ensures |KeptIndices(outs)| == |Collect(outs).instances| <= |outs|
    ensures forall a, b :: 0 <= a < b < |KeptIndices(outs)| ==> KeptIndices(outs)[a] < KeptIndices(outs)[b]
    ensures forall a :: 0 <= a < |KeptIndices(outs)| ==> KeptIndices(outs)[a] < |outs|
    decreases |outs|
  {
    if outs != [] {
      KeptIndicesIncrease(outs[1..]);
      var idx := KeptIndices(outs);
      var it := KeptIndices(outs[1..]);
      if outs[0].Keep? {
        assert idx == [0] + Shift(it);
        forall a, b | 0 <= a < b < |idx| ensures idx[a] < idx[b] {
          if a > 0 {
            assert idx[a] == it[a - 1] + 1 && idx[b] == it[b - 1] + 1;
          }
        }
      }
    }
  }

  /** The instance at position `a` is the one its row's decision produces. */
  lemma {:induction false} KeptIndexProducesInstance(outs: seq<RowOutcome>, a: nat)
    requires a < |KeptIndices(outs)| == |Collect(outs).instances|
    ensures KeptIndices(outs)[a] < |outs| && outs[KeptIndices(outs)[a]] == Keep(Collect(outs).instances[a])
    decreases |outs|
  {
    var tail := outs[1..];
    var it := KeptIndices(tail);
    KeptIndicesIncrease(tail);
    match outs[0]
    case Skip =>
      assert KeptIndices(outs) == Shift(it);
      KeptIndexProducesInstance(tail, a);
      assert outs[it[a] + 1] == tail[it[a]];
    case Keep(inst) =>
      assert KeptIndices(outs) == [0] + Shift(it);
      assert Collect(outs).instances == [inst] + Collect(tail).instances;
      if a > 0 {
        KeptIndexProducesInstance(tail, a - 1);
        assert outs[it[a - 1] + 1] == tail[it[a - 1]];
      }
  }

  /** Each instance is the one its row's decision produces. */
  lemma KeptIndicesProduceInstances(outs: seq<RowOutcome>)
    ensures |KeptIndices(outs)| == |Collect(outs).instances|
    ensures forall a :: 0 <= a < |KeptIndices(outs)| ==>
      KeptIndices(outs)[a] < |outs| && outs[KeptIndices(outs)[a]] == Keep(Collect(outs).instances[a])
  {
    KeptIndicesIncrease(outs);
    forall a | 0 <= a < |KeptIndices(outs)|
      ensures KeptIndices(outs)[a] < |outs| && outs[KeptIndices(outs)[a]] == Keep(Collect(outs).instances[a])
    {
      KeptIndexProducesInstance(outs, a);
    }
  }

  /** Without an error, a kept decision at position `k` is listed. */
  lemma {:induction false} KeptDecisionIsListed(outs: seq<RowOutcome>, k: nat)
    requires Collect(outs).error.None?
    requires k < |outs| && outs[k].Keep?
    ensures k in KeptIndices(outs)
    decreases |outs|
  {
    var tail := outs[1..];
    var it := KeptIndices(tail);
    if k > 0 {
      assert outs[k] == tail[k - 1];
      match outs[0]
      case Skip =>
        KeptDecisionIsListed(tail, k - 1);
        var a :| 0 <= a < |it| && it[a] == k - 1;
        assert KeptIndices(outs)[a] == k;
      case Keep(_) =>
        KeptDecisionIsListed(tail, k - 1);
        var a :| 0 <= a < |it| && it[a] == k - 1;
        assert KeptIndices(outs)[a + 1] == k;
    }
  }

  /** Without an error, every row that its decision keeps has its position listed. */
  lemma KeptIndicesComplete(outs: seq<RowOutcome>)
    requires Collect(outs).error.None?
    ensures forall k :: 0 <= k < |outs| && outs[k].Keep? ==> k in KeptIndices(outs)
  {
    forall k | 0 <= k < |outs| && outs[k].Keep? ensures k in KeptIndices(outs) {
      KeptDecisionIsListed(outs, k);
    }
  }

  /**
   * The instances of a read are, in file order, exactly those of the rows its
   * decisions keep; without an error no kept row is missing.
   */
  lemma ReadKeepsRowsInOrder(reader: Reader, rows: seq<Row>, tokenize: string -> seq<string>)
    requires TextsAreStrings(reader, rows)
    ensures var r := ReadRows(reader, rows, tokenize);
      var idx := KeptIndices(Outcomes(reader, rows, tokenize));
      |idx| == |r.instances| <= |rows| &&
      (forall a, b :: 0 <= a < b < |idx| ==> idx[a] < idx[b]) &&
      (forall a :: 0 <= a < |idx| ==>
        idx[a] < |rows| && RowStep(reader, rows[idx[a]], idx[a], tokenize) == Keep(r.instances[a])) &&
      (r.error.None? ==>
        forall k :: 0 <= k < |rows| && RowStep(reader, rows[k], k, tokenize).Keep? ==> k in idx)
  {
    var outs := Outcomes(reader, rows, tokenize);
    KeptIndicesIncrease(outs);
    KeptIndicesProduceInstances(outs);
    if Collect(outs).error.None? {
      KeptIndicesComplete(outs);
    }
  }

  /** A row is kept if its text is present and its label is absent or listed. */
  predicate RowAccepted(reader: Reader, row: Row) {
    Get(row, reader.textKey).Str? &&
    !ConvertLabel(reader, Get(row, reader.labelKey)).SkipRow?
  }

  /** When every decision keeps its row, the read yields one instance per row and no error. */
  lemma {:induction false} CollectAllKept(outs: seq<RowOutcome>)
    requires forall k :: 0 <= k < |outs| ==> outs[k].Keep?
    ensures Collect(outs).error.None? && |Collect(outs).instances| == |outs|
    decreases |outs|
  {
    if outs != [] {
      forall k | 0 <= k < |outs| - 1 ensures outs[1..][k].Keep? {
        assert outs[1..][k] == outs[k + 1];
      }
      CollectAllKept(outs[1..]);
    }
  }

  /** When every row has a text and an absent or listed label, every row yields an instance. */
  lemma AllAcceptedRowsAreRead(reader: Reader, rows: seq<Row>, tokenize: string -> seq<string>)
    requires forall k :: 0 <= k < |rows| ==> RowAccepted(reader, rows[k])
    ensures TextsAreStrings(reader, rows)
    ensures ReadRows(reader, rows, tokenize).error.None?
    ensures |ReadRows(reader, rows, tokenize).instances| == |rows|
  {
    CollectAllKept(Outcomes(reader, rows, tokenize));
  }

  /**
   * A small example file, read with the labels of the reader's test: a normal
   * row, an anomalous row, an unlabelled row and a row with an unknown label
   * read as three instances with the normalised labels.
   */
  lemma ExampleFileScenario(tokenize: string -> seq<string>)
    ensures var reader := NewReader(One("pos"), One("neg"), DefaultTextKey, DefaultLabelKey, DefaultLabelNamespace);
      var rows: seq<Row> := [
        map["text" := Str("great film"), "label" := Str("pos")],
        map["text" := Str("dull film"), "label" := Str("neg")],
        map["text" := Str("a film"), "label" := Str("unsup")],
        map["text" := Str("some film")]];
      var r := ReadRows(reader, rows, tokenize);
      r.error.None? && |r.instances| == 3 &&
      "label" in r.instances[0].fields && r.instances[0].fields["label"] == LabelField("normal", "labels") &&
      "label" in r.instances[1].fields && r.instances[1].fields["label"] == LabelField("anomalous", "labels") &&
      "label" !in r.instances[2].fields
  {
    var reader := NewReader(One("pos"), One("neg"), DefaultTextKey, DefaultLabelKey, DefaultLabelNamespace);
    var rows: seq<Row> := [
      map["text" := Str("great film"), "label" := Str("pos")],
      map["text" := Str("dull film"), "label" := Str("neg")],
      map["text" := Str("a film"), "label" := Str("unsup")],
      map["text" := Str("some film")]];
    assert "neg" != "pos";
    assert "unsup" !in reader.normalLabels && "unsup" !in reader.anomalousLabels;
    assert "label" !in rows[3];
    var outs := Outcomes(reader, rows, tokenize);
    var i0 := InstanceOf(reader, "great film", Some("normal"), tokenize);
    var i1 := InstanceOf(reader, "dull film", Some("anomalous"), tokenize);
    var i3 := InstanceOf(reader, "some film", None, tokenize);
    assert outs[0] == Keep(i0);
    assert outs[1] == Keep(i1);
    assert outs[2] == Skip;
    assert outs[3] == Keep(i3);
    assert Collect(outs[3..]) == ReadResult([i3], None) by {
      assert outs[3..][1..] == [];
    }
    assert outs[2..][1..] == outs[3..];
    assert outs[1..][1..] == outs[2..];
    assert Collect(outs[1..]) == ReadResult([i1, i3], None);
    assert Collect(outs) == ReadResult([i0, i1, i3], None);
  }
}
