/** Date-indexed series. A statement holds one list of period-end dates and, for
    each line item, a sequence of amounts aligned to it. Dates are natural
    numbers written YYYYMMDD, so numeric order is chronological order. */
module Series {
  import opened Numeric
  import opened Wrappers

  type Date = nat

  /** The year of a YYYYMMDD date. */
  function Year(d: Date): nat
  {
    d / 10000
  }

  /** Unique keys in chronological order. */
  predicate Chronological(d: seq<Date>)
  {
    forall i, j :: 0 <= i < j < |d| ==> d[i] < d[j]
  }

  predicate Disjoint(d1: seq<Date>, d2: seq<Date>)
  {
    forall i, j :: 0 <= i < |d1| && 0 <= j < |d2| ==> d1[i] != d2[j]
  }

  /** Every date of `d1` precedes every date of `d2`. */
  predicate Precedes(d1: seq<Date>, d2: seq<Date>)
  {
    forall i, j :: 0 <= i < |d1| && 0 <= j < |d2| ==> d1[i] < d2[j]
  }

  /** The position of the latest date (`np.max(ser.index)`), whatever the order. */
  function LatestIndex(d: seq<Date>): (k: nat)
    requires |d| > 0
    ensures k < |d|
    ensures forall i :: 0 <= i < |d| ==> d[i] <= d[k]
  {
    if |d| == 1 then 0
    else
      var k := LatestIndex(d[..|d| - 1]);
      if d[|d| - 1] >= d[k] then |d| - 1 else k
  }

  /** In a chronological series the latest date is the last position. */
  lemma LatestIsLast(d: seq<Date>)
    requires |d| > 0 && Chronological(d)
    ensures LatestIndex(d) == |d| - 1
  {
  }

  /** pandas `Series.diff()`: NaN at the first position, x[t] - x[t-1] after it. */
  function Diff(x: seq<Num>): (y: seq<Num>)
    ensures |y| == |x|
  {
    seq(|x|, t requires 0 <= t < |x| => if t == 0 then NaN else Sub(x[t], x[t - 1]))
  }

  /** The first position holding date `x`, if any (a label lookup). */
  function IndexOf(d: seq<Date>, x: Date): (r: Option<nat>)
    ensures r.Some? ==> r.value < |d| && d[r.value] == x
    ensures r.None? ==> forall i :: 0 <= i < |d| ==> d[i] != x
  {
    if d == [] then None
    else if d[0] == x then Some(0)
    else match IndexOf(d[1..], x)
      case None => None
      case Some(k) => Some(k + 1)
  }

  /** Looks up the values at a list of dates (`ser[dates]`); None if one is missing. */
  function Select(d: seq<Date>, x: seq<Num>, keys: seq<Date>): (r: Option<seq<Num>>)
    requires |d| == |x|
    ensures r.Some? <==> forall k :: 0 <= k < |keys| ==> IndexOf(d, keys[k]).Some?
    ensures r.Some? ==> |r.value| == |keys|
    ensures r.Some? ==> forall k :: 0 <= k < |keys| ==> r.value[k] == x[IndexOf(d, keys[k]).value]
  {
    if keys == [] then Some([])
    else match (IndexOf(d, keys[0]), Select(d, x, keys[1..]))
      case (Some(i), Some(rest)) => Some([x[i]] + rest)
      case _ => None
  }

  lemma IndexOfChronological(d: seq<Date>, i: nat)
    requires Chronological(d) && i < |d|
    ensures IndexOf(d, d[i]) == Some(i)
  {
  }

  /** One named column of a statement table (`to_pandas_df`). */
  datatype Column = Column(name: string, values: seq<Num>)

  predicate DistinctNames(t: seq<Column>)
  {
    forall i, j :: 0 <= i < j < |t| ==> t[i].name != t[j].name
  }

  // The merge underlying every `attach`: concatenate two date-indexed series and
  // sort the result by date. A merge plan tells, position by position, which
  // operand and which of its positions supplies the entry.

  datatype Src = L(i: nat) | R(j: nat)

  predicate Within(s: Src, n1: nat, n2: nat)
  {
    match s
    case L(a) => a < n1
    case R(b) => b < n2
  }

  predicate From(s: Src, i: nat, j: nat)
  {
    match s
    case L(a) => i <= a
    case R(b) => j <= b
  }

  /** The merge of d1[i..] and d2[j..]: the earlier head date goes first. */
  function Interleave(d1: seq<Date>, d2: seq<Date>, i: nat, j: nat): (p: seq<Src>)
    requires i <= |d1| && j <= |d2|
    ensures |p| == |d1| - i + |d2| - j
    ensures forall k :: 0 <= k < |p| ==> Within(p[k], |d1|, |d2|) && From(p[k], i, j)
    decreases |d1| - i + |d2| - j
  {
    if i == |d1| && j == |d2| then []
    else if j == |d2| || (i < |d1| && d1[i] < d2[j]) then [L(i)] + Interleave(d1, d2, i + 1, j)
    else [R(j)] + Interleave(d1, d2, i, j + 1)
  }

  function Plan(d1: seq<Date>, d2: seq<Date>): (p: seq<Src>)
    ensures |p| == |d1| + |d2|
    ensures forall k :: 0 <= k < |p| ==> Within(p[k], |d1|, |d2|)
  {
    Interleave(d1, d2, 0, 0)
  }

  predicate PlanFits(p: seq<Src>, n1: nat, n2: nat)
  {
    forall k :: 0 <= k < |p| ==> Within(p[k], n1, n2)
  }

  /** Applies a merge plan to two aligned series. */
  function Pick<T>(p: seq<Src>, c1: seq<T>, c2: seq<T>): (c: seq<T>)
    requires PlanFits(p, |c1|, |c2|)
    ensures |c| == |p|
  {
    seq(|p|, k requires 0 <= k < |p| => match p[k] case L(a) => c1[a] case R(b) => c2[b])
  }

  /** The dates of the merged series. */
  function MergedDates(d1: seq<Date>, d2: seq<Date>): (d: seq<Date>)
    ensures |d| == |d1| + |d2|
  {
    Pick(Plan(d1, d2), d1, d2)
  }

  /** One column of the merged series. */
  function Merged(d1: seq<Date>, d2: seq<Date>, c1: seq<Num>, c2: seq<Num>): (c: seq<Num>)
    requires |c1| == |d1| && |c2| == |d2|
    ensures |c| == |d1| + |d2|
  {
    Pick(Plan(d1, d2), c1, c2)
  }

  function PickOne<T>(s: Src, c1: seq<T>, c2: seq<T>): T
    requires Within(s, |c1|, |c2|)
  {
    match s case L(a) => c1[a] case R(b) => c2[b]
  }

  lemma PickCons<T>(s: Src, rest: seq<Src>, c1: seq<T>, c2: seq<T>)
    requires Within(s, |c1|, |c2|) && PlanFits(rest, |c1|, |c2|)
    ensures PlanFits([s] + rest, |c1|, |c2|)
    ensures Pick([s] + rest, c1, c2) == [PickOne(s, c1, c2)] + Pick(rest, c1, c2)
  {
    var p := [s] + rest;
    assert forall k :: 1 <= k < |p| ==> p[k] == rest[k - 1];
  }

  lemma ConsChronological(x: Date, s: seq<Date>)
    requires Chronological(s)
    requires forall k :: 0 <= k < |s| ==> x < s[k]
    ensures Chronological([x] + s)
  {
    var t := [x] + s;
    forall i, j | 0 <= i < j < |t|
      ensures t[i] < t[j]
    {
      assert t[j] == s[j - 1];
      if i > 0 {
        assert t[i] == s[i - 1];
      }
    }
  }

  lemma {:induction false} InterleaveChronological(d1: seq<Date>, d2: seq<Date>, i: nat, j: nat)
    requires Chronological(d1) && Chronological(d2) && Disjoint(d1, d2)
    requires i <= |d1| && j <= |d2|
    ensures Chronological(Pick(Interleave(d1, d2, i, j), d1, d2))
    decreases |d1| - i + |d2| - j
  {
    var p := Interleave(d1, d2, i, j);
    if i == |d1| && j == |d2| {
      assert p == [];
    } else if j == |d2| || (i < |d1| && d1[i] < d2[j]) {
      var rest := Interleave(d1, d2, i + 1, j);
      assert p == [L(i)] + rest;
      InterleaveChronological(d1, d2, i + 1, j);
      PickCons(L(i), rest, d1, d2);
      var outRest := Pick(rest, d1, d2);
      forall k | 0 <= k < |outRest|
        ensures d1[i] < outRest[k]
      {
        assert From(rest[k], i + 1, j) && Within(rest[k], |d1|, |d2|);
        match rest[k]
        case L(a) => assert outRest[k] == d1[a];
        case R(b) => assert outRest[k] == d2[b]; assert d2[j] <= d2[b];
      }
      ConsChronological(d1[i], outRest);
    } else {
      var rest := Interleave(d1, d2, i, j + 1);
      assert p == [R(j)] + rest;
      InterleaveChronological(d1, d2, i, j + 1);
      PickCons(R(j), rest, d1, d2);
      var outRest := Pick(rest, d1, d2);
      assert i < |d1| ==> d2[j] < d1[i];
      forall k | 0 <= k < |outRest|
        ensures d2[j] < outRest[k]
      {
        assert From(rest[k], i, j + 1) && Within(rest[k], |d1|, |d2|);
        match rest[k]
        case L(a) => assert outRest[k] == d1[a]; assert d1[i] <= d1[a];
        case R(b) => assert outRest[k] == d2[b];
      }
      ConsChronological(d2[j], outRest);
    }
  }

  /** Merging two chronological series with no common date gives a chronological series. */
  lemma MergedChronological(d1: seq<Date>, d2: seq<Date>)
    requires Chronological(d1) && Chronological(d2) && Disjoint(d1, d2)
    ensures Chronological(MergedDates(d1, d2))
  {
    InterleaveChronological(d1, d2, 0, 0);
  }

  lemma {:induction false} InterleaveMultiset(d1: seq<Date>, d2: seq<Date>, i: nat, j: nat)
    requires i <= |d1| && j <= |d2|
    ensures multiset(Pick(Interleave(d1, d2, i, j), d1, d2)) == multiset(d1[i..]) + multiset(d2[j..])
    decreases |d1| - i + |d2| - j
  {
    var p := Interleave(d1, d2, i, j);
    if i == |d1| && j == |d2| {
      assert p == [];
    } else if j == |d2| || (i < |d1| && d1[i] < d2[j]) {
      var rest := Interleave(d1, d2, i + 1, j);
      assert p == [L(i)] + rest;
      InterleaveMultiset(d1, d2, i + 1, j);
      PickCons(L(i), rest, d1, d2);
      MultisetStep(d1[i], Pick(rest, d1, d2), d1[i..], d2[j..]);
    } else {
      var rest := Interleave(d1, d2, i, j + 1);
      assert p == [R(j)] + rest;
      InterleaveMultiset(d1, d2, i, j + 1);
      PickCons(R(j), rest, d1, d2);
      MultisetStep(d2[j], Pick(rest, d1, d2), d2[j..], d1[i..]);
    }
  }

  lemma MultisetStep(x: Date, out: seq<Date>, a: seq<Date>, b: seq<Date>)
    requires |a| > 0 && a[0] == x
    requires multiset(out) == multiset(a[1..]) + multiset(b)
    ensures multiset([x] + out) == multiset(a) + multiset(b)
  {
    assert a == [x] + a[1..];
  }

  /** The merged dates are exactly the dates of both operands, each once per occurrence. */
  lemma MergedMultiset(d1: seq<Date>, d2: seq<Date>)
    ensures multiset(MergedDates(d1, d2)) == multiset(d1) + multiset(d2)
  {
    InterleaveMultiset(d1, d2, 0, 0);
    assert d1[0..] == d1 && d2[0..] == d2;
  }

  /** Each entry of a merged column comes from the operand that owns its date. */
  lemma MergedOwner(d1: seq<Date>, d2: seq<Date>, c1: seq<Num>, c2: seq<Num>, k: nat)
    requires Chronological(d1) && Chronological(d2) && Disjoint(d1, d2)
    requires |c1| == |d1| && |c2| == |d2| && k < |d1| + |d2|
    ensures forall a :: 0 <= a < |d1| && MergedDates(d1, d2)[k] == d1[a] ==> Merged(d1, d2, c1, c2)[k] == c1[a]
    ensures forall b :: 0 <= b < |d2| && MergedDates(d1, d2)[k] == d2[b] ==> Merged(d1, d2, c1, c2)[k] == c2[b]
  {
  }

  function LeftRun(from: nat, n: nat): (p: seq<Src>)
    ensures |p| == n && forall k :: 0 <= k < n ==> p[k] == L(from + k)
    decreases n
  {
    if n == 0 then [] else [L(from)] + LeftRun(from + 1, n - 1)
  }

  function RightRun(from: nat, n: nat): (p: seq<Src>)
    ensures |p| == n && forall k :: 0 <= k < n ==> p[k] == R(from + k)
    decreases n
  {
    if n == 0 then [] else [R(from)] + RightRun(from + 1, n - 1)
  }

  lemma {:induction false} InterleaveTail(d1: seq<Date>, d2: seq<Date>, j: nat)
    requires j <= |d2|
    ensures Interleave(d1, d2, |d1|, j) == RightRun(j, |d2| - j)
    decreases |d2| - j
  {
    if j < |d2| {
      InterleaveTail(d1, d2, j + 1);
    }
  }

  lemma {:induction false} InterleavePrecedes(d1: seq<Date>, d2: seq<Date>, i: nat)
    requires Precedes(d1, d2) && i <= |d1|
    ensures Interleave(d1, d2, i, 0) == LeftRun(i, |d1| - i) + RightRun(0, |d2|)
    decreases |d1| - i
  {
    if i < |d1| {
      InterleavePrecedes(d1, d2, i + 1);
      if d2 != [] {
        assert d1[i] < d2[0];
      }
      assert LeftRun(i, |d1| - i) == [L(i)] + LeftRun(i + 1, |d1| - (i + 1));
    } else {
      InterleaveTail(d1, d2, 0);
    }
  }

  /** When every date of the first operand precedes the second's, the merge is
      plain concatenation. */
  lemma MergedPrecedes(d1: seq<Date>, d2: seq<Date>, c1: seq<Num>, c2: seq<Num>)
    requires Precedes(d1, d2) && |c1| == |d1| && |c2| == |d2|
    ensures MergedDates(d1, d2) == d1 + d2
    ensures Merged(d1, d2, c1, c2) == c1 + c2
  {
    InterleavePrecedes(d1, d2, 0);
  }
}
