/** Properties of the models as the script chains them: build on training
    records, predict, evaluate. */
module Pipeline {
  import opened Records
  import opened Majority
  import opened Evaluation

  /** Scoring the constant prediction `model` against records counts exactly
      the records labelled `model`. */
  lemma {:induction false} ConstantPredictionMatches(model: string, data: seq<Record>)
    requires Labelled(data)
    ensures Zippable(RunMajorityClassModel(model, data), data)
    ensures Matches(Zip(RunMajorityClassModel(model, data), data)) == CountAttachments(data, model)
  {
    if data != [] {
      var n := |data| - 1;
      var prefix := data[..n];
      ConstantPredictionMatches(model, prefix);
      var pairs := Zip(RunMajorityClassModel(model, data), data);
      var prefixPairs := Zip(RunMajorityClassModel(model, prefix), prefix);
      assert |pairs[..n]| == |prefixPairs| == n;
      assert forall i :: 0 <= i < n ==> pairs[..n][i] == prefixPairs[i];
      assert pairs[..n] == prefixPairs;
      assert pairs[n] == Outcome(model, data[n][5]);
      assert Matches(pairs) == Matches(prefixPairs) + (if data[n][5] == model then 1 else 0);
      assert CountAttachments(data, model) ==
        CountAttachments(prefix, model) + (if data[n][5] == model then 1 else 0);
    }
  }

  /** On its own training records, with labels "V" and "N", the majority model
      scores an accuracy of at least one half. */
  lemma MajorityTrainingAccuracy(data: seq<Record>)
    requires BinaryLabels(data) && |data| > 0
    ensures EvalCounts(RunMajorityClassModel(BuildMajorityClassModel(data), data), data).accuracy >= 0.5
  {
    var m := BuildMajorityClassModel(data);
    var predictions := RunMajorityClassModel(m, data);
    ConstantPredictionMatches(m, data);
    MajorityCoversHalf(data);
    var r := EvalCounts(predictions, data);
    assert r.matches == CountAttachments(data, m);
    HalfOrMore(r.accuracy, r.matches, |data|);
  }

  lemma HalfOrMore(q: real, part: nat, whole: nat)
    requires whole > 0 && IsFraction(q, part, whole) && 2 * part >= whole
    ensures q >= 0.5
  {
    assert (q - 0.5) * (whole as real) == (part as real) - 0.5 * (whole as real);
  }
}
