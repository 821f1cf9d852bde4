/** Records and label counting (`countAttachments`). A record is the list of
    fields of one line: id, verb, noun1, preposition, noun2, attachment. */
module Records {

  type Record = seq<string>

  /** The two attachment labels: to the verb and to the first noun. */
  const V: string := "V"
  const N: string := "N"

  /** Every record has an attachment field (index 5). */
  predicate Labelled(data: seq<Record>) {
    forall i :: 0 <= i < |data| ==> |data[i]| > 5
  }

  /** Every record is labelled "V" or "N", as the data files are. */
  predicate BinaryLabels(data: seq<Record>) {
    Labelled(data) && forall i :: 0 <= i < |data| ==> data[i][5] == V || data[i][5] == N
  }

  /** `countAttachments(data, t)`: how many records carry attachment `t`. */
  function CountAttachments(data: seq<Record>, t: string): (n: nat)
    requires Labelled(data)
    ensures n <= |data|
    ensures n == 0 <==> forall i :: 0 <= i < |data| ==> data[i][5] != t
    ensures n == |data| <==> forall i :: 0 <= i < |data| ==> data[i][5] == t
  {
    if data == [] then 0
    else
      var last := data[|data| - 1];
      CountAttachments(data[..|data| - 1], t) + (if last[5] == t then 1 else 0)
  }

  /** The positions of the records with attachment `t`. */
  function IndicesWith(data: seq<Record>, t: string): set<int>
    requires Labelled(data)
  {
    set i | 0 <= i < |data| && data[i][5] == t
  }

  /** The count is the number of positions whose record carries `t`. */
  lemma {:induction false} CountIsCardinality(data: seq<Record>, t: string)
    requires Labelled(data)
    ensures CountAttachments(data, t) == |IndicesWith(data, t)|
  {
    if data != [] {
      var n := |data| - 1;
      var prefix := data[..n];
      CountIsCardinality(prefix, t);
      if data[n][5] == t {
        assert IndicesWith(data, t) == IndicesWith(prefix, t) + {n};
      } else {
        assert IndicesWith(data, t) == IndicesWith(prefix, t);
      }
    }
  }

  /** Counting distributes over concatenation of record lists. */
  lemma {:induction false} CountConcat(a: seq<Record>, b: seq<Record>, t: string)
    requires Labelled(a) && Labelled(b)
    ensures Labelled(a + b)
    ensures CountAttachments(a + b, t) == CountAttachments(a, t) + CountAttachments(b, t)
    decreases |b|
  {
    if b == [] {
      assert a + b == a;
    } else {
      var m := |b| - 1;
      assert (a + b)[..|a + b| - 1] == a + b[..m];
      assert (a + b)[|a + b| - 1] == b[m];
      CountConcat(a, b[..m], t);
    }
  }

  /** "V" and "N" records never outnumber the records; when every label is
      "V" or "N" they account for all of them. */
  lemma {:induction false} CountVPlusN(data: seq<Record>)
    requires Labelled(data)
    ensures CountAttachments(data, V) + CountAttachments(data, N) <= |data|
    ensures BinaryLabels(data) ==> CountAttachments(data, V) + CountAttachments(data, N) == |data|
  {
    if data != [] {
      CountVPlusN(data[..|data| - 1]);
    }
  }
}
