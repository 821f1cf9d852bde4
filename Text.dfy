/** Splitting a line into whitespace-separated fields, as Python's `str.split()`
    with no argument does: runs of whitespace separate fields, leading and
    trailing whitespace is dropped, and no field is empty. */
module Text {

  /** The characters for which Python's `str.isspace` holds: the separators of
      `str.split()` with no argument (ASCII tab, line feed, vertical tab, form
      feed, carriage return, the four information separators, space, and the
      Unicode spaces and line/paragraph separators). */
  predicate IsSpace(c: char)
    ensures c == ' ' || c == '\t' || c == '\n' || c == '\r' ==> IsSpace(c)
    ensures ('0' <= c <= '9') || ('a' <= c <= 'z') || ('A' <= c <= 'Z') || c == '.' ==> !IsSpace(c)
    ensures IsSpace(c) ==> 9 <= c as int <= 0x3000
  {
    var n := c as int;
    (9 <= n <= 13) || (28 <= n <= 32) || n == 0x85 || n == 0xA0 || n == 0x1680
    || (0x2000 <= n <= 0x200A) || n == 0x2028 || n == 0x2029 || n == 0x202F
    || n == 0x205F || n == 0x3000
  }

  /** A field of a split line: non-empty and free of whitespace. */
  predicate IsField(w: string) {
    |w| > 0 && forall i :: 0 <= i < |w| ==> !IsSpace(w[i])
  }

  /** A line made of whitespace only (possibly empty). */
  predicate IsBlank(s: string) {
    forall i :: 0 <= i < |s| ==> IsSpace(s[i])
  }

  /** The longest prefix of `s` that holds no whitespace. */
  function Word(s: string): (w: string)
    ensures w <= s
    ensures forall i :: 0 <= i < |w| ==> !IsSpace(w[i])
    ensures |w| == |s| || IsSpace(s[|w|])
  {
    if s == [] || IsSpace(s[0]) then [] else [s[0]] + Word(s[1..])
  }

  /** `s.split()`: the maximal whitespace-free runs of `s`, in order. */
  function Split(s: string): (fields: seq<string>)
    ensures forall i :: 0 <= i < |fields| ==> IsField(fields[i])
    decreases |s|
  {
    if s == [] then []
    else if IsSpace(s[0]) then Split(s[1..])
    else
      var w := Word(s);
      [w] + Split(s[|w|..])
  }

  /** `" ".join(fields)`: the fields separated by single spaces. */
  function Join(fields: seq<string>): string {
    if |fields| == 0 then []
    else if |fields| == 1 then fields[0]
    else fields[0] + " " + Join(fields[1..])
  }

  /** A line splits into no fields exactly when it is blank. */
  lemma {:induction false} SplitEmptyIffBlank(s: string)
    ensures Split(s) == [] <==> IsBlank(s)
    decreases |s|
  {
    if s != [] {
      if IsSpace(s[0]) {
        SplitEmptyIffBlank(s[1..]);
        if IsBlank(s[1..]) {
          assert forall i :: 1 <= i < |s| ==> s[i] == s[1..][i - 1];
        }
      } else {
        assert !IsBlank(s);
      }
    }
  }

  /** The first word stops at a whitespace character `c`, whatever follows it. */
  lemma {:induction false} WordBeforeSpace(a: string, c: char, b: string)
    requires IsSpace(c)
    ensures Word(a + [c] + b) == Word(a)
    decreases |a|
  {
    if a == [] {
      assert (a + [c] + b)[0] == c;
    } else {
      assert (a + [c] + b)[0] == a[0];
      if !IsSpace(a[0]) {
        assert (a + [c] + b)[1..] == a[1..] + [c] + b;
        WordBeforeSpace(a[1..], c, b);
      }
    }
  }

  /** Splitting at a whitespace character splits the two sides independently. */
  lemma {:induction false} SplitAtSpace(a: string, c: char, b: string)
    requires IsSpace(c)
    ensures Split(a + [c] + b) == Split(a) + Split(b)
    decreases |a|
  {
    var s := a + [c] + b;
    if a == [] {
      assert s[1..] == b;
    } else if IsSpace(a[0]) {
      assert s[1..] == a[1..] + [c] + b;
      SplitAtSpace(a[1..], c, b);
    } else {
      var w := Word(a);
      assert Word(s) == w by { WordBeforeSpace(a, c, b); }
      assert 0 < |w| <= |a|;
      assert s[|w|..] == a[|w|..] + [c] + b;
      SplitAtSpace(a[|w|..], c, b);
      calc {
        Split(s);
        [w] + Split(s[|w|..]);
        [w] + (Split(a[|w|..]) + Split(b));
        ([w] + Split(a[|w|..])) + Split(b);
        Split(a) + Split(b);
      }
    }
  }

  /** A single field splits into itself. */
  lemma {:induction false} SplitField(w: string)
    requires IsField(w)
    ensures Split(w) == [w]
  {
    WordWhole(w);
    assert w[|w|..] == [];
  }

  /** A whitespace-free string is its own first word. */
  lemma {:induction false} WordWhole(w: string)
    requires forall i :: 0 <= i < |w| ==> !IsSpace(w[i])
    ensures Word(w) == w
    decreases |w|
  {
    if w != [] {
      WordWhole(w[1..]);
      assert [w[0]] + w[1..] == w;
    }
  }

  /** Joining well-formed fields with single spaces and splitting again gives
      back the fields. */
  lemma {:induction false} SplitJoin(fields: seq<string>)
    requires forall i :: 0 <= i < |fields| ==> IsField(fields[i])
    ensures Split(Join(fields)) == fields
    decreases |fields|
  {
    if |fields| == 1 {
      SplitField(fields[0]);
    } else if |fields| > 1 {
      var rest := fields[1..];
      assert fields[0] + " " + Join(rest) == fields[0] + [' '] + Join(rest);
      SplitAtSpace(fields[0], ' ', Join(rest));
      SplitField(fields[0]);
      SplitJoin(rest);
      assert [fields[0]] + rest == fields;
    }
  }

  /** Re-serialising a split line with single spaces and splitting it again
      reproduces the same fields. */
  lemma {:induction false} SplitJoinSplit(s: string)
    ensures Split(Join(Split(s))) == Split(s)
  {
    SplitJoin(Split(s));
  }
}
