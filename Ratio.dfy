/** The length-ratio baseline (`computeVNratioFeature`, `buildRatioModel`,
    `typeForSample`, `runRatioModel`): a threshold on the ratio of the verb's
    length to the first noun's length. Python floats are modelled as exact
    reals. */
module Ratio {
  import opened Records

  /** A record whose verb (index 1) and first noun (index 2) exist and whose
      first noun is non-empty, so that the ratio feature is defined. */
  predicate HasRatio(r: Record) {
    |r| > 2 && |r[2]| > 0
  }

  /** Every record has a defined ratio feature. */
  predicate AllHaveRatio(data: seq<Record>) {
    forall i :: 0 <= i < |data| ==> HasRatio(data[i])
  }

  /** Training data `buildRatioModel` can run on: labelled, every ratio defined. */
  predicate RatioReady(data: seq<Record>) {
    Labelled(data) && AllHaveRatio(data)
  }

  /** `computeVNratioFeature`: the verb's length divided by the first noun's length. */
  function ComputeVNRatioFeature(sample: Record): (r: real)
    requires HasRatio(sample)
    ensures r >= 0.0
    ensures r * (|sample[2]| as real) == |sample[1]| as real
  {
    (|sample[1]| as real) / (|sample[2]| as real)
  }

  /** The sum of the ratio over the records labelled `t`. */
  function LabelRatioSum(data: seq<Record>, t: string): (sum: real)
    requires RatioReady(data)
    ensures sum >= 0.0
  {
    if data == [] then 0.0
    else
      var last := data[|data| - 1];
      LabelRatioSum(data[..|data| - 1], t) + (if last[5] == t then ComputeVNRatioFeature(last) else 0.0)
  }

  /** The sum of the ratio over the records NOT labelled `t`. */
  function OtherRatioSum(data: seq<Record>, t: string): (sum: real)
    requires RatioReady(data)
    ensures sum >= 0.0
  {
    if data == [] then 0.0
    else
      var last := data[|data| - 1];
      OtherRatioSum(data[..|data| - 1], t) + (if last[5] != t then ComputeVNRatioFeature(last) else 0.0)
  }

  /** Training data on which `buildRatioModel` does not divide by zero. */
  predicate RatioTrainable(data: seq<Record>) {
    RatioReady(data) && CountAttachments(data, V) > 0 && CountAttachments(data, N) > 0
  }

  /** `avgVratio`: the mean ratio of the "V" records. */
  function VMean(data: seq<Record>): (mean: real)
    requires RatioTrainable(data)
    ensures mean >= 0.0
    ensures mean * (CountAttachments(data, V) as real) == LabelRatioSum(data, V)
  {
    LabelRatioSum(data, V) / (CountAttachments(data, V) as real)
  }

  /** `avgNratio`: the ratios of every record not labelled "V", divided by the
      number of records labelled "N". */
  function NMean(data: seq<Record>): (mean: real)
    requires RatioTrainable(data)
    ensures mean >= 0.0
    ensures mean * (CountAttachments(data, N) as real) == OtherRatioSum(data, V)
  {
    OtherRatioSum(data, V) / (CountAttachments(data, N) as real)
  }

  /** The threshold `buildRatioModel` returns: the midpoint of the two means,
      so it lies between them. */
  function RatioThreshold(data: seq<Record>): (threshold: real)
    requires RatioTrainable(data)
    ensures VMean(data) <= NMean(data) ==> VMean(data) <= threshold <= NMean(data)
    ensures NMean(data) <= VMean(data) ==> NMean(data) <= threshold <= VMean(data)
    ensures threshold - VMean(data) == NMean(data) - threshold
  {
    (VMean(data) + NMean(data)) / 2.0
  }

  /** `buildRatioModel`: one pass accumulating the ratio sums of the "V"
      records and of all the others, then the midpoint of the two means. */
  method BuildRatioModel(data: seq<Record>) returns (threshold: real)
    requires RatioTrainable(data)
    ensures threshold == RatioThreshold(data)
  {
    var sumV := 0.0;
    var sumN := 0.0;
    for i := 0 to |data|
      invariant RatioReady(data[..i])
      invariant sumV == LabelRatioSum(data[..i], V)
      invariant sumN == OtherRatioSum(data[..i], V)
    {
      var sample := data[i];
      var ratio := ComputeVNRatioFeature(sample);
      assert data[..i + 1][..i] == data[..i];
      if sample[5] == V {
        sumV := sumV + ratio;
      } else {
        sumN := sumN + ratio;
      }
    }
    assert data[..|data|] == data;
    var avgV := sumV / (CountAttachments(data, V) as real);
    var avgN := sumN / (CountAttachments(data, N) as real);
    threshold := (avgV + avgN) / 2.0;
  }

  /** When every label is "V" or "N", the records not labelled "V" are exactly
      the "N" records, so `NMean` is the mean ratio of the "N" records. */
  lemma {:induction false} OtherSumIsNSum(data: seq<Record>)
    requires RatioReady(data) && BinaryLabels(data)
    ensures OtherRatioSum(data, V) == LabelRatioSum(data, N)
  {
    if data != [] {
      OtherSumIsNSum(data[..|data| - 1]);
    }
  }

  /** `x` added to itself `n` times. */
  function Scale(x: real, n: nat): real {
    if n == 0 then 0.0 else Scale(x, n - 1) + x
  }

  lemma {:induction false} ScaleIsProduct(x: real, n: nat)
    ensures Scale(x, n) == x * (n as real)
  {
    if n > 0 {
      ScaleIsProduct(x, n - 1);
      assert x * (n as real) == x * ((n - 1) as real) + x;
    }
  }

  /** The ratio sum over the `t` records lies between `lo` and `hi` times the
      number of `t` records, given those bounds on each of their ratios. */
  lemma {:induction false} LabelSumBounds(data: seq<Record>, t: string, lo: real, hi: real)
    requires RatioReady(data)
    requires forall i :: 0 <= i < |data| && data[i][5] == t ==>
      lo <= ComputeVNRatioFeature(data[i]) <= hi
    ensures Scale(lo, CountAttachments(data, t)) <= LabelRatioSum(data, t)
    ensures LabelRatioSum(data, t) <= Scale(hi, CountAttachments(data, t))
  {
    if data != [] {
      var prefix := data[..|data| - 1];
      assert forall i :: 0 <= i < |prefix| ==> prefix[i] == data[i];
      LabelSumBounds(prefix, t, lo, hi);
    }
  }

  /** If every "V" record's ratio lies in [lo, hi], so does `avgVratio`. */
  lemma VMeanBounds(data: seq<Record>, lo: real, hi: real)
    requires RatioTrainable(data)
    requires forall i :: 0 <= i < |data| && data[i][5] == V ==>
      lo <= ComputeVNRatioFeature(data[i]) <= hi
    ensures lo <= VMean(data) <= hi
  {
    var c := CountAttachments(data, V);
    LabelSumBounds(data, V, lo, hi);
    ScaleIsProduct(lo, c);
    ScaleIsProduct(hi, c);
    MeanWithin(LabelRatioSum(data, V), c, lo, hi);
  }

  /** When every label is "V" or "N" and every "N" record's ratio lies in
      [lo, hi], so does `avgNratio`. */
  lemma NMeanBounds(data: seq<Record>, lo: real, hi: real)
    requires RatioTrainable(data) && BinaryLabels(data)
    requires forall i :: 0 <= i < |data| && data[i][5] == N ==>
      lo <= ComputeVNRatioFeature(data[i]) <= hi
    ensures lo <= NMean(data) <= hi
  {
    var c := CountAttachments(data, N);
    OtherSumIsNSum(data);
    LabelSumBounds(data, N, lo, hi);
    ScaleIsProduct(lo, c);
    ScaleIsProduct(hi, c);
    MeanWithin(LabelRatioSum(data, N), c, lo, hi);
  }

  /** A sum of `c` values, each in [lo, hi], divided by `c` lies in [lo, hi]. */
  lemma MeanWithin(s: real, c: nat, lo: real, hi: real)
    requires c > 0
    requires lo * (c as real) <= s
    requires s <= hi * (c as real)
    ensures lo <= s / (c as real) <= hi
  {
    var q := s / (c as real);
    assert q * (c as real) == s;
    assert (q - lo) * (c as real) == s - lo * (c as real);
    assert (hi - q) * (c as real) == hi * (c as real) - s;
  }

  /** `typeForSample`: "V" exactly when the verb is longer than `threshold`
      times the first noun, "N" otherwise. */
  function TypeForSample(sample: Record, threshold: real): (prediction: string)
    requires HasRatio(sample)
    ensures prediction == V || prediction == N
    ensures prediction == V <==> (|sample[1]| as real) > threshold * (|sample[2]| as real)
  {
    if ComputeVNRatioFeature(sample) > threshold then V else N
  }

  /** Lowering the threshold never turns a "V" prediction into "N". */
  lemma TypeForSampleMonotone(sample: Record, low: real, high: real)
    requires HasRatio(sample)
    requires low <= high
    ensures TypeForSample(sample, high) == V ==> TypeForSample(sample, low) == V
  {
  }

  /** A record whose ratio equals the larger mean is classified with that
      mean's side, and one whose ratio equals the smaller mean with the other. */
  lemma ThresholdSeparatesMeans(data: seq<Record>, sample: Record)
    requires RatioTrainable(data)
    requires HasRatio(sample)
    ensures VMean(data) > NMean(data) && ComputeVNRatioFeature(sample) == VMean(data) ==>
      TypeForSample(sample, RatioThreshold(data)) == V
    ensures VMean(data) > NMean(data) && ComputeVNRatioFeature(sample) == NMean(data) ==>
      TypeForSample(sample, RatioThreshold(data)) == N
  {
  }

  /** `runRatioModel`: one `typeForSample` label per record, in order. */
  function RunRatioModel(threshold: real, data: seq<Record>): (predictions: seq<string>)
    requires AllHaveRatio(data)
    ensures |predictions| == |data|
    ensures forall i :: 0 <= i < |data| ==> predictions[i] == TypeForSample(data[i], threshold)
  {
    seq(|data|, i requires 0 <= i < |data| => TypeForSample(data[i], threshold))
  }

  /** Every record predicted "V" under a threshold is still predicted "V"
      under any lower threshold. */
  lemma RunRatioModelMonotone(data: seq<Record>, low: real, high: real, i: nat)
    requires AllHaveRatio(data)
    requires low <= high
    requires i < |data|
    ensures RunRatioModel(high, data)[i] == V ==> RunRatioModel(low, data)[i] == V
  {
    TypeForSampleMonotone(data[i], low, high);
  }

  /** "is" against "chairman": 2 / 8. */
  lemma RatioExample()
    ensures ComputeVNRatioFeature(["1", "is", "chairman", "of", "N.V.", "N"]) == 0.25
  {
  }

  /** Two "V" records with ratios 1 and 1/2 and one "N" record with ratio 1/5
      give the threshold (3/4 + 1/5) / 2 = 0.475. */
  lemma {:induction false} ThresholdExample()
    ensures var data := [["0", "ab", "ab", "x", "y", V], ["1", "a", "ab", "x", "y", V],
                         ["2", "a", "abcde", "x", "y", N]];
      RatioTrainable(data) && RatioThreshold(data) == 0.475
  {
    var r0: Record := ["0", "ab", "ab", "x", "y", V];
    var r1: Record := ["1", "a", "ab", "x", "y", V];
    var r2: Record := ["2", "a", "abcde", "x", "y", N];
    var data := [r0, r1, r2];
    assert data[..2] == [r0, r1] && [r0, r1][..1] == [r0] && [r0][..0] == [];
    assert ComputeVNRatioFeature(r0) == 1.0;
    assert ComputeVNRatioFeature(r1) == 0.5;
    assert ComputeVNRatioFeature(r2) == 0.2;
    assert CountAttachments(data, V) == 2;
    assert CountAttachments(data, N) == 1;
    assert LabelRatioSum([r0], V) == 1.0;
    assert LabelRatioSum([r0, r1], V) == 1.5;
    assert LabelRatioSum(data, V) == 1.5;
    assert OtherRatioSum([r0], V) == 0.0;
    assert OtherRatioSum([r0, r1], V) == 0.0;
    assert OtherRatioSum(data, V) == 0.2;
  }
}
