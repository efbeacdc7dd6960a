/** The date sampler (`getRandomDates`): enumerate every day of the range,
    shuffle them with Fisher-Yates (Knuth, The Art of Computer Programming,
    Vol. 2, Algorithm 3.4.2P) and keep the first N. */
module Sampler {
  import opened Basics
  import opened Draws
  import opened Validation

  datatype SampleError = InvalidParameters

  /** The days of [start, end] in order; empty when end < start. */
  function DayRange(start: int, end: int): (days: seq<int>)
    ensures |days| == Max0(end - start + 1)
    ensures forall i :: 0 <= i < |days| ==> days[i] == start + i
  {
    seq(Max0(end - start + 1), i => start + i)
  }

  /** The enumeration loop: starting at `start`, append a day and step forward
      while the current day is on or before `end`. */
  method EnumerateDays(start: int, end: int) returns (days: seq<int>)
    ensures days == DayRange(start, end)
    ensures forall i, j :: 0 <= i < j < |days| ==> days[i] < days[j]
    ensures forall d :: d in days <==> start <= d <= end
  {
    days := [];
    var current := start;
    while current <= end
      invariant current == start + |days| || (end < start && days == [])
      invariant start <= current ==> current <= Max0(end - start + 1) + start
      invariant forall i :: 0 <= i < |days| ==> days[i] == start + i
      decreases end - current
    {
      days := days + [current];
      current := current + 1;
    }
    assert |days| == Max0(end - start + 1);
    assert days == DayRange(start, end);
    forall d | start <= d <= end
      ensures d in days
    {
      assert days[d - start] == d;
    }
  }

  /** The Fisher-Yates loop: for i from the last index down to 1, swap element i
      with element `floor(draw * (i + 1))`. The k-th swap uses `rand(k)`. */
  method Shuffle(a: seq<int>, rand: Stream) returns (b: seq<int>)
    requires ValidStream(rand)
    ensures |b| == |a|
    ensures multiset(b) == multiset(a)
  {
    var arr := new int[|a|](k requires 0 <= k < |a| => a[k]);
    assert arr[..] == a;
    var i := |a| - 1;
    while i > 0
      invariant -1 <= i < |a|
      invariant |a| > 0 ==> 0 <= i
      invariant multiset(arr[..]) == multiset(a)
      decreases i
    {
      var j := Scaled(rand(|a| - 1 - i), i + 1);
      arr[i], arr[j] := arr[j], arr[i];
      i := i - 1;
    }
    b := arr[..];
  }

  /** A repeated value occurs at least twice in the multiset. */
  lemma {:induction false} RepeatCounted(s: seq<int>, i: int, j: int)
    requires 0 <= i < j < |s|
    requires s[i] == s[j]
    ensures multiset(s)[s[i]] >= 2
  {
    assert s == s[..j] + s[j..];
    assert s[i] in s[..j];
    assert s[j..][0] == s[j];
    assert multiset(s) == multiset(s[..j]) + multiset(s[j..]);
  }

  /** In a sequence without duplicates every value occurs at most once. */
  lemma {:induction false} DistinctCountsOne(s: seq<int>, x: int)
    requires Distinct(s)
    ensures multiset(s)[x] <= 1
  {
    if |s| > 0 {
      var t := s[..|s| - 1];
      assert s == t + [s[|s| - 1]];
      assert Distinct(t);
      DistinctCountsOne(t, x);
      assert s[|s| - 1] !in t;
      assert multiset(s) == multiset(t) + multiset{s[|s| - 1]};
    }
  }

  /** A permutation of a sequence without duplicates has no duplicates. */
  lemma PermutationKeepsDistinct(a: seq<int>, b: seq<int>)
    requires multiset(a) == multiset(b)
    requires Distinct(a)
    ensures Distinct(b)
  {
    forall i, j | 0 <= i < j < |b|
      ensures b[i] != b[j]
    {
      if b[i] == b[j] {
        RepeatCounted(b, i, j);
        DistinctCountsOne(a, b[i]);
        assert false;
      }
    }
  }

  /** Whether a date argument is falsy (`!date`): missing or the empty string. */
  predicate Falsy(date: Option<DateInput>) {
    date.None? || date.value.Blank?
  }

  /** `getRandomDates`: missing or empty dates and a negative count are rejected; a
      non-empty date that does not parse yields no days, because the enumeration
      loop's comparison with an invalid date is false. */
  method GetRandomDates(startDate: Option<DateInput>, endDate: Option<DateInput>, count: int, rand: Stream)
    returns (r: Result<seq<int>, SampleError>)
    requires ValidStream(rand)
    ensures r.Failure? <==> Falsy(startDate) || Falsy(endDate) || count < 0
    ensures r.Success? && !(startDate.value.Day? && endDate.value.Day?) ==> r.value == []
    ensures r.Success? && startDate.value.Day? && endDate.value.Day? ==>
      var start, end := startDate.value.ordinal, endDate.value.ordinal;
      && |r.value| == Min(count, Max0(end - start + 1))
      && Distinct(r.value)
      && multiset(r.value) <= multiset(DayRange(start, end))
      && (forall d :: d in r.value ==> start <= d <= end)
      && (count >= end - start + 1 ==> forall d :: start <= d <= end ==> d in r.value)
  {
    if Falsy(startDate) || Falsy(endDate) || count < 0 {
      return Failure(InvalidParameters);
    }
    if !(startDate.value.Day? && endDate.value.Day?) {
      return Success([]);
    }
    var start, end := startDate.value.ordinal, endDate.value.ordinal;
    var all := EnumerateDays(start, end);
    var shuffled := Shuffle(all, rand);
    var n := Min(count, |shuffled|);
    PermutationKeepsDistinct(all, shuffled);
    var picked := shuffled[..n];
    assert shuffled == picked + shuffled[n..];
    assert multiset(shuffled) == multiset(picked) + multiset(shuffled[n..]);
    forall d | d in picked
      ensures start <= d <= end
    {
      var k :| 0 <= k < n && picked[k] == d;
      assert shuffled[k] == d;
      assert d in multiset(shuffled);
      assert d in all;
    }
    if count >= end - start + 1 {
      assert picked == shuffled;
      forall d | start <= d <= end
        ensures d in picked
      {
        assert d in all;
        assert d in multiset(all);
        assert d in multiset(shuffled);
      }
    }
    return Success(picked);
  }
}
