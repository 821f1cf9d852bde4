/** The numbers `evalPrint` reports: matches, accuracy and the 2x2 confusion
    counts. Every count ranges over `zip(predictions, labels)`, which stops at
    the shorter of the two lists. */
module Evaluation {
  import opened Records

  function Min(a: int, b: int): int {
    if a <= b then a else b
  }

  /** One zipped pair: the predicted label and the record's attachment field. */
  datatype Outcome = Outcome(predicted: string, actual: string)

  /** Every record that `zip` pairs with a prediction has an attachment field. */
  predicate Zippable(predictions: seq<string>, labels: seq<Record>) {
    forall i :: 0 <= i < |predictions| && 0 <= i < |labels| ==> |labels[i]| > 5
  }

  /** `zip(predictions, labels)`, keeping field 5 of each record. */
  function Zip(predictions: seq<string>, labels: seq<Record>): (pairs: seq<Outcome>)
    requires Zippable(predictions, labels)
    ensures |pairs| == Min(|predictions|, |labels|)
    ensures forall i :: 0 <= i < |pairs| ==>
      pairs[i] == Outcome(predictions[i], labels[i][5])
  {
    seq(Min(|predictions|, |labels|), i requires 0 <= i < Min(|predictions|, |labels|) =>
      Outcome(predictions[i], labels[i][5]))
  }

  /** `sum(matches)`: the pairs whose prediction equals the label. */
  function Matches(pairs: seq<Outcome>): (n: nat)
    ensures n <= |pairs|
    ensures n == |pairs| <==> forall i :: 0 <= i < |pairs| ==> pairs[i].predicted == pairs[i].actual
  {
    if pairs == [] then 0
    else
      var last := pairs[|pairs| - 1];
      Matches(pairs[..|pairs| - 1]) + (if last.predicted == last.actual then 1 else 0)
  }

  /** One confusion cell: the pairs predicted `p` whose label is `a`. */
  function Cell(pairs: seq<Outcome>, p: string, a: string): (n: nat)
    ensures n <= |pairs|
    ensures n == 0 <==> forall i :: 0 <= i < |pairs| ==> !(pairs[i].predicted == p && pairs[i].actual == a)
  {
    if pairs == [] then 0
    else
      var last := pairs[|pairs| - 1];
      Cell(pairs[..|pairs| - 1], p, a) + (if last.predicted == p && last.actual == a then 1 else 0)
  }

  /** The positions of the pairs whose prediction equals the label. */
  function MatchIndices(pairs: seq<Outcome>): set<int> {
    set i | 0 <= i < |pairs| && pairs[i].predicted == pairs[i].actual
  }

  /** The positions of the pairs predicted `p` whose label is `a`. */
  function CellIndices(pairs: seq<Outcome>, p: string, a: string): set<int> {
    set i | 0 <= i < |pairs| && pairs[i].predicted == p && pairs[i].actual == a
  }

  /** The match count is the number of positions whose pair agrees. */
  lemma {:induction false} MatchesIsCardinality(pairs: seq<Outcome>)
    ensures Matches(pairs) == |MatchIndices(pairs)|
  {
    if pairs != [] {
      var n := |pairs| - 1;
      var prefix := pairs[..n];
      MatchesIsCardinality(prefix);
      if pairs[n].predicted == pairs[n].actual {
        assert MatchIndices(pairs) == MatchIndices(prefix) + {n};
      } else {
        assert MatchIndices(pairs) == MatchIndices(prefix);
      }
    }
  }

  /** A confusion cell is the number of positions whose pair is predicted `p`
      with label `a`. */
  lemma {:induction false} CellIsCardinality(pairs: seq<Outcome>, p: string, a: string)
    ensures Cell(pairs, p, a) == |CellIndices(pairs, p, a)|
  {
    if pairs != [] {
      var n := |pairs| - 1;
      var prefix := pairs[..n];
      CellIsCardinality(prefix, p, a);
      if pairs[n].predicted == p && pairs[n].actual == a {
        assert CellIndices(pairs, p, a) == CellIndices(prefix, p, a) + {n};
      } else {
        assert CellIndices(pairs, p, a) == CellIndices(prefix, p, a);
      }
    }
  }

  /** What `evalPrint` prints, before formatting. */
  datatype Report = Report(
    matches: nat,
    accuracy: real,
    predVtrueV: nat,
    predVtrueN: nat,
    predNtrueV: nat,
    predNtrueN: nat)

  /** `evalPrint`'s numbers. The accuracy divides by the number of predictions,
      not by the number of zipped pairs, and fails on no predictions. */
  function EvalCounts(predictions: seq<string>, labels: seq<Record>): (r: Report)
    requires |predictions| > 0
    requires Zippable(predictions, labels)
    ensures r.matches <= Min(|predictions|, |labels|)
    ensures IsFraction(r.accuracy, r.matches, |predictions|)
  {
    var pairs := Zip(predictions, labels);
    var m := Matches(pairs);
    Report(
      m,
      Accuracy(m, |predictions|),
      Cell(pairs, V, V),
      Cell(pairs, V, N),
      Cell(pairs, N, V),
      Cell(pairs, N, N))
  }

  /** `q` is `part` out of `whole`: `q * whole == part`, and `q` lies in
      [0, 1]. */
  predicate IsFraction(q: real, part: nat, whole: nat) {
    q * (whole as real) == part as real && 0.0 <= q <= 1.0
  }

  /** `1.0 * sum(matches) / len(predictions)`: a count out of `total` items
      as a fraction in [0, 1]. */
  function Accuracy(matches: nat, total: nat): (q: real)
    requires 0 < total && matches <= total
    ensures IsFraction(q, matches, total)
  {
    var q := (matches as real) / (total as real);
    assert (1.0 - q) * (total as real) == (total - matches) as real;
    q
  }

  /** The positions below the zipped length where the prediction is `p` and
      the record's label is `a`. */
  function ZippedIndices(predictions: seq<string>, labels: seq<Record>, p: string, a: string): set<int>
    requires Zippable(predictions, labels)
  {
    set i | 0 <= i < |predictions| && i < |labels| && predictions[i] == p && labels[i][5] == a
  }

  /** Each number of the report counts zipped positions: the matches are the
      positions where the prediction equals the record's label, and each
      confusion cell the positions with that prediction and that label. */
  lemma ReportCounts(predictions: seq<string>, labels: seq<Record>)
    requires |predictions| > 0
    requires Zippable(predictions, labels)
    ensures EvalCounts(predictions, labels).matches ==
      |set i | 0 <= i < |predictions| && i < |labels| && predictions[i] == labels[i][5]|
    ensures EvalCounts(predictions, labels).predVtrueV == |ZippedIndices(predictions, labels, V, V)|
    ensures EvalCounts(predictions, labels).predVtrueN == |ZippedIndices(predictions, labels, V, N)|
    ensures EvalCounts(predictions, labels).predNtrueV == |ZippedIndices(predictions, labels, N, V)|
    ensures EvalCounts(predictions, labels).predNtrueN == |ZippedIndices(predictions, labels, N, N)|
  {
    var pairs := Zip(predictions, labels);
    MatchesIsCardinality(pairs);
    assert MatchIndices(pairs) ==
      set i | 0 <= i < |predictions| && i < |labels| && predictions[i] == labels[i][5];
    CellIsCardinality(pairs, V, V);
    CellIsCardinality(pairs, V, N);
    CellIsCardinality(pairs, N, V);
    CellIsCardinality(pairs, N, N);
    assert CellIndices(pairs, V, V) == ZippedIndices(predictions, labels, V, V);
    assert CellIndices(pairs, V, N) == ZippedIndices(predictions, labels, V, N);
    assert CellIndices(pairs, N, V) == ZippedIndices(predictions, labels, N, V);
    assert CellIndices(pairs, N, N) == ZippedIndices(predictions, labels, N, N);
  }

  /** Both sides of every pair are "V" or "N". */
  predicate BinaryPairs(pairs: seq<Outcome>) {
    forall i :: 0 <= i < |pairs| ==>
      (pairs[i].predicted == V || pairs[i].predicted == N) &&
      (pairs[i].actual == V || pairs[i].actual == N)
  }

  /** The four cells never overcount the pairs, and the diagonal never exceeds
      the matches. */
  lemma {:induction false} CellsBounded(pairs: seq<Outcome>)
    ensures Cell(pairs, V, V) + Cell(pairs, V, N) + Cell(pairs, N, V) + Cell(pairs, N, N) <= |pairs|
    ensures Cell(pairs, V, V) + Cell(pairs, N, N) <= Matches(pairs)
  {
    if pairs != [] {
      CellsBounded(pairs[..|pairs| - 1]);
    }
  }

  /** Over pairs labelled "V" or "N" on both sides the four cells partition the
      pairs, and the diagonal is exactly the matches. */
  lemma {:induction false} ConfusionPartition(pairs: seq<Outcome>)
    requires BinaryPairs(pairs)
    ensures Cell(pairs, V, V) + Cell(pairs, V, N) + Cell(pairs, N, V) + Cell(pairs, N, N) == |pairs|
    ensures Cell(pairs, V, V) + Cell(pairs, N, N) == Matches(pairs)
  {
    if pairs != [] {
      var prefix := pairs[..|pairs| - 1];
      assert forall i :: 0 <= i < |prefix| ==> prefix[i] == pairs[i];
      ConfusionPartition(prefix);
    }
  }

  /** The same partition, stated on the report `evalPrint` prints, whenever
      every prediction and every zipped label is "V" or "N". */
  lemma ReportPartition(predictions: seq<string>, labels: seq<Record>)
    requires |predictions| > 0
    requires Zippable(predictions, labels)
    requires forall i :: 0 <= i < |predictions| ==> predictions[i] == V || predictions[i] == N
    requires forall i :: 0 <= i < |predictions| && i < |labels| ==> labels[i][5] == V || labels[i][5] == N
    ensures var r := EvalCounts(predictions, labels);
      r.predVtrueV + r.predVtrueN + r.predNtrueV + r.predNtrueN == Min(|predictions|, |labels|) &&
      r.predVtrueV + r.predNtrueN == r.matches
  {
    ConfusionPartition(Zip(predictions, labels));
  }

  /** Accuracy is 1 exactly when there are at least as many records as
      predictions and every prediction equals its record's label: extra
      predictions beyond the records lower the accuracy, extra records are
      ignored. */
  lemma PerfectAccuracy(predictions: seq<string>, labels: seq<Record>)
    requires |predictions| > 0
    requires Zippable(predictions, labels)
    ensures EvalCounts(predictions, labels).accuracy == 1.0 <==>
      |predictions| <= |labels| &&
      forall i :: 0 <= i < |predictions| ==> predictions[i] == labels[i][5]
  {
    var pairs := Zip(predictions, labels);
    var r := EvalCounts(predictions, labels);
    FractionIsOne(r.accuracy, r.matches, |predictions|);
    if |predictions| <= |labels| {
      assert |pairs| == |predictions|;
      assert (forall i :: 0 <= i < |pairs| ==> pairs[i].predicted == pairs[i].actual) <==>
        (forall i :: 0 <= i < |predictions| ==> predictions[i] == labels[i][5]);
    }
  }

  /** A fraction of a positive whole is 1 exactly when the part is the whole. */
  lemma FractionIsOne(q: real, part: nat, whole: nat)
    requires whole > 0 && IsFraction(q, part, whole)
    ensures q == 1.0 <==> part == whole
  {
    if part == whole {
      assert (q - 1.0) * (whole as real) == 0.0;
    }
  }

  /** Predictions V, N, V against labels V, N, N: two matches out of three,
      one each of predicted V / true V, predicted V / true N and predicted N /
      true N, none of predicted N / true V. */
  lemma {:induction false} EvalExample()
    ensures var labels := [["0", "a", "b", "c", "d", V], ["1", "a", "b", "c", "d", N],
                           ["2", "a", "b", "c", "d", N]];
      Zippable([V, N, V], labels) &&
      EvalCounts([V, N, V], labels) == Report(2, 2.0 / 3.0, 1, 1, 0, 1)
  {
    var l0: Record := ["0", "a", "b", "c", "d", V];
    var l1: Record := ["1", "a", "b", "c", "d", N];
    var l2: Record := ["2", "a", "b", "c", "d", N];
    var labels := [l0, l1, l2];
    var pairs := Zip([V, N, V], labels);
    assert pairs == [Outcome(V, V), Outcome(N, N), Outcome(V, N)];
    var p2 := [Outcome(V, V), Outcome(N, N)];
    assert pairs[..2] == p2 && p2[..1] == [Outcome(V, V)] && [Outcome(V, V)][..0] == [];
    assert Matches(pairs) == 2;
    assert Cell([Outcome(V, V)], V, V) == 1;
    assert Cell(p2, V, V) == 1;
    assert Cell(pairs, V, V) == 1;
    assert Cell(pairs, V, N) == 1;
    assert Cell(pairs, N, V) == 0;
    assert Cell(pairs, N, N) == 1;
    var r := EvalCounts([V, N, V], labels);
    assert r.accuracy * 3.0 == 2.0;
  }
}
