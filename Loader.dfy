/** Turning the lines of a record file into records (`parsefile`, without the
    file read itself). */
module Loader {
  import opened Text

  /** `parsefile`'s loop: every line, blank or not, is split on whitespace and
      appended to the result, in file order. */
  method ParseFile(lines: seq<string>) returns (records: seq<seq<string>>)
    ensures |records| == |lines|
    ensures forall i :: 0 <= i < |lines| ==> records[i] == Split(lines[i])
    ensures forall i, j :: 0 <= i < |records| && 0 <= j < |records[i]| ==> IsField(records[i][j])
  {
    records := [];
    for i := 0 to |lines|
      invariant |records| == i
      invariant forall k :: 0 <= k < i ==> records[k] == Split(lines[k])
    {
      records := records + [Split(lines[i])];
    }
  }

  /** A blank line yields a record with no fields rather than being skipped,
      and a record with fields comes only from a line that is not blank. */
  lemma ParseFileBlankLines(lines: seq<string>, records: seq<seq<string>>, i: nat)
    requires |records| == |lines|
    requires forall k :: 0 <= k < |lines| ==> records[k] == Split(lines[k])
    requires i < |lines|
    ensures records[i] == [] <==> IsBlank(lines[i])
  {
    SplitEmptyIffBlank(lines[i]);
  }
}
