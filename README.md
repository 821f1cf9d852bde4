# Prepositional-phrase attachment baselines, modelled in Dafny

`ppa.py` trains two baseline classifiers for prepositional-phrase attachment
and scores them. The task is to decide, for a verb, a first noun, a
preposition and a second noun, whether the phrase attaches to the verb (`V`)
or to the noun (`N`). This project models the script's logic and proves
properties of it:

- `Text`: Python's `str.split()` with no argument. Runs of Unicode whitespace
  (`str.isspace`) separate the fields.
- `Loader`: `parsefile`'s loop. Each line read from the file is split and
  appended, in order.
- `Records`: a record is the line's fields as `seq<string>`. Field 1 is the
  verb, field 2 the first noun and field 5 the attachment label.
  `countAttachments` counts the records with a given label.
- `Majority`: the majority-class model. It predicts the more frequent training
  label, with ties going to `N`, once per record.
- `Ratio`: the length-ratio model. Its feature is `len(verb) / len(noun1)`. Its
  threshold is the midpoint of the mean feature of the `V` records and of the
  `N` records. It predicts `V` when a record's feature exceeds the threshold.
  `buildRatioModel`'s accumulation loop is a method proved against the
  function `RatioThreshold`.
- `Evaluation`: the numbers `evalPrint` reports: matches, accuracy and the
  four confusion-matrix counts. All of them range over
  `zip(predictions, labels)`.
- `Pipeline`: properties of the models chained together. One of them is that
  the majority model scores at least 1/2 on its own training data, when that
  data is non-empty and every label is `V` or `N`.

The script never catches an error, so each crash becomes a precondition:

- a record too short for the field that is read (an `IndexError`);
- an empty first noun;
- training data with no `V` record or no `N` record;
- an empty prediction list (each of the last three is a `ZeroDivisionError`).

Python floats are modelled as exact reals.

Behaviours of `ppa.py` that the model keeps as they are:

- A blank line gives a record with no fields. It is not skipped
  (`Loader.ParseFileBlankLines`).
- `evalPrint` does not require the two lists to have the same length. `zip`
  stops at the shorter one, and the accuracy still divides by
  `len(predictions)` (`Evaluation.PerfectAccuracy`).
- Predictions V, N, V against labels V, N, N count 1 for predicted V / true N,
  because the third pair is (V, N) (`Evaluation.EvalExample`).
- `buildRatioModel` adds the ratio of every record not labelled `V` to the `N`
  sum, but divides only by the number of records labelled `N`.
  `Ratio.OtherSumIsNSum` shows the two agree when every label is `V` or `N`.

## Model

| member | source | states |
|---|---|---|
| `Text.IsSpace` | ppa.py:22 | the separators of `line.split()`: space, tab, line feed and carriage return are among them; digits, letters and `.` are not; every separator lies between code points 9 and 0x3000 |
| `Text.Word` | ppa.py:22 | the first field of a line is its longest whitespace-free prefix: a prefix of the line with no whitespace, followed by whitespace or the end |
| `Text.Split` | ppa.py:22 | every field `line.split()` produces is non-empty and holds no whitespace |
| `Text.SplitEmptyIffBlank` | ppa.py:22 | a line splits into no fields exactly when it is empty or all whitespace |
| `Text.WordBeforeSpace` | ppa.py:22 | a field ends at the first whitespace character, whatever follows it |
| `Text.SplitAtSpace` | ppa.py:22 | splitting a line at any whitespace character gives the fields of the part before it followed by those of the part after it |
| `Text.SplitField` | ppa.py:22 | a non-empty, whitespace-free string splits into itself alone |
| `Text.WordWhole` | ppa.py:22 | a whitespace-free string is its own first field |
| `Text.SplitJoin` | ppa.py:22 | joining well-formed fields with single spaces and splitting the result gives back the same fields |
| `Text.SplitJoinSplit` | ppa.py:22 | re-serialising a split line with single spaces and splitting it again gives the same fields |
| `Loader.ParseFile` | ppa.py:20-23 | the result has exactly one entry per line, in order; entry i is `lines[i].split()`; every field is non-empty and whitespace-free |
| `Loader.ParseFileBlankLines` | ppa.py:20-22 | a line's entry is empty exactly when the line is blank, so blank lines are kept, not skipped |
| `Records.CountAttachments` | ppa.py:38-39 | the count is at most the number of records; it is 0 exactly when no record carries the label, and it is the number of records exactly when all of them do |
| `Records.CountIsCardinality` | ppa.py:38-39 | the count equals the number of positions whose record has field 5 equal to the label |
| `Records.CountConcat` | ppa.py:38-39 | counting over two concatenated record lists adds the two counts |
| `Records.CountVPlusN` | ppa.py:38-39 | the counts of `V` and `N` together never exceed the number of records, and equal it when every label is `V` or `N` |
| `Majority.BuildMajorityClassModel` | ppa.py:41-45 | the model is `V` or `N`; it is at least as frequent in the training data as the other label; ties, including the empty training set, give `N` |
| `Majority.MajorityCoversHalf` | ppa.py:41-45 | with labels `V`/`N` only, the chosen label covers at least half of the training records |
| `Majority.RunMajorityClassModel` | ppa.py:47-49 | one prediction per record, each equal to the model |
| `Ratio.ComputeVNRatioFeature` | ppa.py:51-54 | the feature is non-negative, and the feature times the first noun's length is the verb's length |
| `Ratio.LabelRatioSum` | ppa.py:58-63 | the sum of the feature over the records carrying a label is non-negative |
| `Ratio.OtherRatioSum` | ppa.py:58-65 | the sum of the feature over the records not carrying a label is non-negative |
| `Ratio.VMean` | ppa.py:66 | `avgVratio` is non-negative, and times the number of `V` records it gives back the ratio sum of the `V` records |
| `Ratio.NMean` | ppa.py:67 | `avgNratio` is non-negative, and times the number of `N` records it gives back the ratio sum of every record not labelled `V` |
| `Ratio.RatioThreshold` | ppa.py:66-68 | the threshold lies between the `V` mean and the `N` mean, at equal distance from both |
| `Ratio.BuildRatioModel` | ppa.py:56-68 | the accumulating loop returns exactly `RatioThreshold` (the midpoint of `sumV / count(V)` and `sumN / count(N)`); it needs non-empty first nouns and at least one `V` and one `N` record |
| `Ratio.OtherSumIsNSum` | ppa.py:62-67 | when every label is `V` or `N`, the sum over the non-`V` records is the sum over the `N` records |
| `Ratio.ScaleIsProduct` | ppa.py:66-67 | arithmetic helper of `VMeanBounds` and `NMeanBounds`, not a model of these lines: adding a value `n` times gives its product with `n` |
| `Ratio.LabelSumBounds` | ppa.py:58-66 | if every ratio of the records carrying a label lies in [lo, hi], their sum lies between lo and hi times their count |
| `Ratio.VMeanBounds` | ppa.py:66 | if every `V` record's ratio lies in [lo, hi], so does `avgVratio` |
| `Ratio.NMeanBounds` | ppa.py:67 | with labels `V`/`N` only, if every `N` record's ratio lies in [lo, hi], so does `avgNratio` |
| `Ratio.MeanWithin` | ppa.py:66-67 | arithmetic helper of `VMeanBounds` and `NMeanBounds`, not a model of these lines: a sum between lo and hi times a positive count, divided by the count, lies in [lo, hi] |
| `Ratio.TypeForSample` | ppa.py:75-79 | the prediction is `V` or `N`, and it is `V` exactly when the verb is longer than the threshold times the first noun |
| `Ratio.TypeForSampleMonotone` | ppa.py:75-79 | lowering the threshold never turns a `V` prediction into `N` |
| `Ratio.ThresholdSeparatesMeans` | ppa.py:68-79 | when the `V` mean exceeds the `N` mean, a record at the `V` mean is predicted `V` and one at the `N` mean is predicted `N` |
| `Ratio.RunRatioModel` | ppa.py:81-82 | one prediction per record, in order; prediction i is `typeForSample(data[i], threshold)` |
| `Ratio.RunRatioModelMonotone` | ppa.py:81-82 | a record predicted `V` under some threshold is predicted `V` under every lower threshold |
| `Ratio.RatioExample` | ppa.py:51-54 | verb "is" against noun "chairman" gives 2/8 = 0.25 |
| `Ratio.ThresholdExample` | ppa.py:56-68 | `V` ratios 1 and 1/2 and `N` ratio 1/5 give the threshold 0.475 |
| `Evaluation.Zip` | ppa.py:27 | one pair per position up to the shorter of the two lists, each pairing a prediction with its record's label |
| `Evaluation.Matches` | ppa.py:27 | the match count is at most the number of pairs, and equals it exactly when every pair agrees |
| `Evaluation.Cell` | ppa.py:29-32 | a confusion cell counts at most all pairs, and is 0 exactly when no pair has that predicted and true label |
| `Evaluation.MatchesIsCardinality` | ppa.py:27 | the match count is the number of positions whose prediction equals its label |
| `Evaluation.CellIsCardinality` | ppa.py:29-32 | a confusion cell is the number of positions predicted `p` whose label is `a` |
| `Evaluation.Accuracy` | ppa.py:28 | the accuracy times the number of predictions is the match count, and it lies in [0, 1] |
| `Evaluation.EvalCounts` | ppa.py:25-32 | the match count is at most the zipped length; the accuracy is the match count out of `len(predictions)`, and it lies in [0, 1] |
| `Evaluation.ReportCounts` | ppa.py:27-32 | the reported matches are the positions below min(len(predictions), len(labels)) where the prediction equals field 5, and each of the four cells is the number of such positions with that prediction and that label |
| `Evaluation.CellsBounded` | ppa.py:29-32 | the four cells never sum to more than the pairs, and the diagonal never exceeds the matches |
| `Evaluation.ConfusionPartition` | ppa.py:29-32 | when all pairs are in {V, N}, the four cells sum to the number of pairs and the diagonal equals the matches |
| `Evaluation.ReportPartition` | ppa.py:27-32 | when all predictions and zipped labels are in {V, N}, the four reported cells sum to min(len(predictions), len(labels)) and predicted V / true V plus predicted N / true N equals the matches |
| `Evaluation.PerfectAccuracy` | ppa.py:27-28 | the accuracy is 1 exactly when there are at least as many records as predictions and every prediction equals its record's label |
| `Evaluation.FractionIsOne` | ppa.py:28 | arithmetic helper of `PerfectAccuracy`, not a model of this line: a fraction of a positive whole is 1 exactly when the part equals the whole |
| `Evaluation.EvalExample` | ppa.py:25-35 | predictions V, N, V against labels V, N, N give 2 matches, accuracy 2/3 and confusion counts 1, 1, 0, 1 |
| `Pipeline.ConstantPredictionMatches` | ppa.py:47-49 | scoring the constant prediction list against the records counts exactly the records carrying that label |
| `Pipeline.MajorityTrainingAccuracy` | ppa.py:41-49 | with labels `V`/`N` only, the majority model scores an accuracy of at least 1/2 on its own non-empty training data |
| `Pipeline.HalfOrMore` | ppa.py:28 | arithmetic helper of `MajorityTrainingAccuracy`, not a model of this line: a fraction whose part is at least half its whole is at least 1/2 |

## Left out

- Opening and reading the file in `parsefile` (ppa.py:19, 21) is I/O. `ParseFile` takes the lines `readlines()` returns, and newline translation is not modelled.
- All printing and `%.2f` formatting (ppa.py:26, 28, 33-35, 69-72) is left out. The model keeps the numbers the prints are computed from: the `Report` datatype and the two means.
- The top-level script (ppa.py:87-104) is left out. It dispatches on `sys.argv` and picks the `training`, `devset` or `test` file.
- IEEE float rounding in the ratio, the threshold and the accuracy is left out. The values are exact reals, and no bit-for-bit agreement with Python floats is claimed.
- The n-gram powerset counter is not part of this model. No code for it appears in `ppa.py`.
- Runtime failures are preconditions, not error values. The script handles none of them and simply terminates.
