/** The table that `buildUnifiedDiff` fills, against the meaning of "longest common subsequence". */
module LongestCommonSubsequence {

  /** `c` is `a` with some elements left out. */
  ghost predicate IsSubsequence<T>(c: seq<T>, a: seq<T>) {
    c == [] ||
    (a != [] && ((c[0] == a[0] && IsSubsequence(c[1..], a[1..])) || IsSubsequence(c, a[1..])))
  }

  ghost predicate IsCommon<T>(c: seq<T>, a: seq<T>, b: seq<T>) {
    IsSubsequence(c, a) && IsSubsequence(c, b)
  }

  /** `n` is the length of a longest common subsequence of `a` and `b`. */
  ghost predicate IsLcsLength<T(!new)>(n: nat, a: seq<T>, b: seq<T>) {
    && (exists c :: IsCommon(c, a, b) && |c| == n)
    && (forall c :: IsCommon(c, a, b) ==> |c| <= n)
  }

  /** The recurrence of the table, in terms of suffixes. */
  ghost function Lcs<T>(a: seq<T>, b: seq<T>): nat {
    if a == [] || b == [] then 0
    else if a[0] == b[0] then Lcs(a[1..], b[1..]) + 1
    else if Lcs(a[1..], b) >= Lcs(a, b[1..]) then Lcs(a[1..], b) else Lcs(a, b[1..])
  }

  lemma {:induction false} DropFirst<T>(c: seq<T>, a: seq<T>)
    requires c != [] && IsSubsequence(c, a)
    ensures IsSubsequence(c[1..], a) && IsSubsequence(c[1..], a[1..])
  {
    if IsSubsequence(c, a[1..]) {
      DropFirst(c, a[1..]);
    }
  }

  lemma {:induction false} LcsIsUpperBound<T>(c: seq<T>, a: seq<T>, b: seq<T>)
    requires IsCommon(c, a, b)
    ensures |c| <= Lcs(a, b)
    decreases |a| + |b|
  {
    if c == [] {
    } else if a[0] == b[0] {
      DropFirst(c, a);
      DropFirst(c, b);
      LcsIsUpperBound(c[1..], a[1..], b[1..]);
    } else if c[0] != a[0] {
      LcsIsUpperBound(c, a[1..], b);
    } else {
      LcsIsUpperBound(c, a, b[1..]);
    }
  }

  lemma {:induction false} LcsIsAttained<T>(a: seq<T>, b: seq<T>) returns (c: seq<T>)
    ensures IsCommon(c, a, b) && |c| == Lcs(a, b)
    decreases |a| + |b|
  {
    if a == [] || b == [] {
      c := [];
    } else if a[0] == b[0] {
      var rest := LcsIsAttained(a[1..], b[1..]);
      c := [a[0]] + rest;
      assert c[1..] == rest;
    } else if Lcs(a[1..], b) >= Lcs(a, b[1..]) {
      c := LcsIsAttained(a[1..], b);
    } else {
      c := LcsIsAttained(a, b[1..]);
    }
  }

  lemma LcsIsLongest<T(!new)>(a: seq<T>, b: seq<T>)
    ensures IsLcsLength(Lcs(a, b), a, b)
  {
    var c := LcsIsAttained(a, b);
    forall c | IsCommon(c, a, b) ensures |c| <= Lcs(a, b) {
      LcsIsUpperBound(c, a, b);
    }
  }

  lemma LcsLengthIsUnique<T(!new)>(n: nat, a: seq<T>, b: seq<T>)
    requires IsLcsLength(n, a, b)
    ensures n == Lcs(a, b)
  {
    var c := LcsIsAttained(a, b);
    LcsIsLongest(a, b);
  }

  /** Each entry of the filled table is the longest-common-subsequence length of two suffixes. */
  method FillTable<T(==,!new)>(before: seq<T>, after: seq<T>) returns (lcs: array2<nat>)
    ensures fresh(lcs) && lcs.Length0 == |before| + 1 && lcs.Length1 == |after| + 1
    ensures forall i, j :: 0 <= i <= |before| && 0 <= j <= |after| ==>
      lcs[i, j] == Lcs(before[i..], after[j..]) && IsLcsLength(lcs[i, j], before[i..], after[j..])
  {
    var rows, cols := |before|, |after|;
    lcs := new nat[rows + 1, cols + 1]((i, j) => 0);
    for i := rows downto 0
      invariant forall j :: 0 <= j <= cols ==> lcs[rows, j] == 0
      invariant forall r :: 0 <= r < i ==> lcs[r, cols] == 0
      invariant forall r, j :: i <= r <= rows && 0 <= j <= cols ==> lcs[r, j] == Lcs(before[r..], after[j..])
    {
      for j := cols downto 0
        invariant forall j :: 0 <= j <= cols ==> lcs[rows, j] == 0
        invariant forall r :: 0 <= r <= i ==> lcs[r, cols] == 0
        invariant forall r, j :: i < r <= rows && 0 <= j <= cols ==> lcs[r, j] == Lcs(before[r..], after[j..])
        invariant forall k :: j <= k <= cols ==> lcs[i, k] == Lcs(before[i..], after[k..])
      {
        assert before[i..][1..] == before[i + 1..] && after[j..][1..] == after[j + 1..];
        lcs[i, j] :=
          if before[i] == after[j] then lcs[i + 1, j + 1] + 1
          else if lcs[i + 1, j] >= lcs[i, j + 1] then lcs[i + 1, j] else lcs[i, j + 1];
      }
    }
    forall i, j | 0 <= i <= rows && 0 <= j <= cols
      ensures IsLcsLength(lcs[i, j], before[i..], after[j..])
    {
      LcsIsLongest(before[i..], after[j..]);
    }
  }
}
