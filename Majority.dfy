/** The majority-class baseline (`buildMajorityClassModel`,
    `runMajorityClassModel`): predict the more frequent training label for
    every record. */
module Majority {
  import opened Records

  /** The label that is not `m`, for `m` one of "V" and "N". */
  function OtherLabel(m: string): string {
    if m == V then N else V
  }

  /** `buildMajorityClassModel`: a label at least as frequent as the other one,
      with ties (including the empty training set) going to "N". */
  function BuildMajorityClassModel(data: seq<Record>): (m: string)
    requires Labelled(data)
    ensures m == V || m == N
    ensures CountAttachments(data, m) >= CountAttachments(data, OtherLabel(m))
    ensures CountAttachments(data, V) == CountAttachments(data, N) ==> m == N
  {
    if CountAttachments(data, V) > CountAttachments(data, N) then V else N
  }

  /** When every label is "V" or "N", the majority label covers at least half
      of the training records. */
  lemma MajorityCoversHalf(data: seq<Record>)
    requires BinaryLabels(data)
    ensures 2 * CountAttachments(data, BuildMajorityClassModel(data)) >= |data|
  {
    CountVPlusN(data);
  }

  /** `runMajorityClassModel`: the model's label, once per record. */
  function RunMajorityClassModel(model: string, data: seq<Record>): (predictions: seq<string>)
    ensures |predictions| == |data|
    ensures forall i :: 0 <= i < |predictions| ==> predictions[i] == model
  {
    seq(|data|, _ => model)
  }
}
