/** The boundary between 0-based indices (the Python caller) and 1-based indices (the
    Julia package behind the front-ends).

    Going out, both front-ends add 1 to every insertion point, constraint index,
    permutation entry and discrete-variable index; coming back, they subtract 1 from every
    entry of a sparsity pattern. Apart from the dscIndices comprehension (see Reformat),
    both directions are loops that rewrite a list in place; they are the methods below. */
module IndexBase {
  import opened PyValues

  /** Every entry of s moved by d. */
  function Shift(s: seq<int>, d: int): (r: seq<int>)
    ensures |r| == |s|
  {
    if s == [] then [] else [s[0] + d] + Shift(s[1..], d)
  }

  /** The 1-based form of a list of 0-based indices. */
  function ToOneBased(s: seq<int>): seq<int> { Shift(s, 1) }

  /** The 0-based form of a list of 1-based indices. */
  function ToZeroBased(s: seq<int>): seq<int> { Shift(s, -1) }

  lemma {:induction false} ShiftAt(s: seq<int>, d: int, i: int)
    requires 0 <= i < |s|
    ensures Shift(s, d)[i] == s[i] + d
  {
    if i > 0 {
      ShiftAt(s[1..], d, i - 1);
    }
  }

  /** A list whose every entry is d more than the corresponding entry of s is Shift(s, d). */
  lemma {:induction false} ShiftCharacterized(s: seq<int>, t: seq<int>, d: int)
    requires |t| == |s|
    requires forall i :: 0 <= i < |s| ==> t[i] == s[i] + d
    ensures t == Shift(s, d)
  {
    if s != [] {
      ShiftCharacterized(s[1..], t[1..], d);
      assert t == [t[0]] + t[1..];
    }
  }

  /** Moving by a and then by b is moving by a + b. */
  lemma {:induction false} ShiftShift(s: seq<int>, a: int, b: int)
    ensures Shift(Shift(s, a), b) == Shift(s, a + b)
  {
    if s != [] {
      ShiftShift(s[1..], a, b);
    }
  }

  /** The two directions of the boundary undo each other. */
  lemma RoundTrip(s: seq<int>)
    ensures ToZeroBased(ToOneBased(s)) == s
    ensures ToOneBased(ToZeroBased(s)) == s
  {
    ShiftShift(s, 1, -1);
    ShiftShift(s, -1, 1);
    ShiftZero(s);
  }

  lemma {:induction false} ShiftZero(s: seq<int>)
    ensures Shift(s, 0) == s
  {
    if s != [] {
      ShiftZero(s[1..]);
      assert s == [s[0]] + s[1..];
    }
  }

  /** Every entry lies in lo..hi-1. */
  predicate InRange(s: seq<int>, lo: int, hi: int) {
    forall i :: 0 <= i < |s| ==> lo <= s[i] < hi
  }

  /** The 0-based indices of n rows are exactly the 1-based indices 1..n once shifted:
      at the empty, the singleton and the full index set alike. */
  lemma OneBasedInRange(s: seq<int>, n: int)
    ensures InRange(s, 0, n) <==> InRange(ToOneBased(s), 1, n + 1)
  {
    forall i | 0 <= i < |s| {
      ShiftAt(s, 1, i);
    }
  }

  /** s lists each of lo, ..., lo + |s| - 1 exactly once. */
  predicate IsPermutation(s: seq<int>, lo: int) {
    && InRange(s, lo, lo + |s|)
    && forall i, j :: 0 <= i < j < |s| ==> s[i] != s[j]
  }

  /** A 0-based permutation of the rows becomes the 1-based permutation with the same
      order, and nothing else does. */
  lemma PermutationToOneBased(s: seq<int>)
    ensures IsPermutation(s, 0) <==> IsPermutation(ToOneBased(s), 1)
  {
    forall i | 0 <= i < |s| {
      ShiftAt(s, 1, i);
    }
  }

  /** The loop that adds d to every entry of a, front to back. */
  method ShiftInPlace(a: array<int>, d: int)
    modifies a
    ensures a[..] == Shift(old(a[..]), d)
  {
    var k := 0;
    while k < a.Length
      invariant 0 <= k <= a.Length
      invariant forall i :: 0 <= i < k ==> a[i] == old(a[i]) + d
      invariant forall i :: k <= i < a.Length ==> a[i] == old(a[i])
    {
      a[k] := a[k] + d;
      k := k + 1;
    }
    ShiftCharacterized(old(a[..]), a[..], d);
  }

  /** The front-ends' decrement of a sparsity pattern held in two arrays: one loop over
      the positions of rows that decrements rows[k] and then cols[k]. When cols is the shorter one, the loop raises IndexError at k = len(cols), after it
      has already decremented rows[k]. */
  method ShiftDownPair(rows: array<int>, cols: array<int>) returns (r: Outcome)
    requires rows != cols
    modifies rows, cols
    ensures rows.Length <= cols.Length ==>
      && r == Done
      && rows[..] == ToZeroBased(old(rows[..]))
      && cols[..] == ToZeroBased(old(cols[..rows.Length])) + old(cols[rows.Length..])
    ensures cols.Length < rows.Length ==>
      && r == Raised(IndexError)
      && rows[..] == ToZeroBased(old(rows[..cols.Length + 1])) + old(rows[cols.Length + 1..])
      && cols[..] == ToZeroBased(old(cols[..]))
  {
    var k := 0;
    while k < rows.Length
      invariant 0 <= k <= rows.Length && k <= cols.Length
      invariant forall i :: 0 <= i < k ==> rows[i] == old(rows[i]) - 1 && cols[i] == old(cols[i]) - 1
      invariant forall i :: k <= i < rows.Length ==> rows[i] == old(rows[i])
      invariant forall i :: k <= i < cols.Length ==> cols[i] == old(cols[i])
    {
      rows[k] := rows[k] - 1;
      if k == cols.Length {
        r := Raised(IndexError);
        SplitShifted(old(rows[..]), rows[..], k + 1);
        ShiftCharacterized(old(cols[..]), cols[..], -1);
        return;
      }
      cols[k] := cols[k] - 1;
      k := k + 1;
    }
    r := Done;
    ShiftCharacterized(old(rows[..]), rows[..], -1);
    SplitShifted(old(cols[..]), cols[..], rows.Length);
  }

  /** t is s with its first m entries decremented. */
  lemma SplitShifted(s: seq<int>, t: seq<int>, m: int)
    requires 0 <= m <= |s| == |t|
    requires forall i :: 0 <= i < m ==> t[i] == s[i] - 1
    requires forall i :: m <= i < |s| ==> t[i] == s[i]
    ensures t == ToZeroBased(s[..m]) + s[m..]
  {
    ShiftCharacterized(s[..m], t[..m], -1);
    assert t == t[..m] + t[m..];
  }
}
