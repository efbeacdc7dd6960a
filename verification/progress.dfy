/** The progress reporter (`ProgressBar`): it records the latest commit count and
    reports a percentage every `ProgressInterval` commits and at the end. */
module Progress {
  import opened Basics
  import opened Constants

  datatype ProgressBar = ProgressBar(total: int, current: int)

  /** Whether `update(current)` prints a progress line. */
  predicate ShouldReport(current: int, total: int) {
    current % ProgressInterval == 0 || current == total
  }

  /** The percentage computed for `current` of `total` commits, before `toFixed` rounds it. */
  function Percentage(current: int, total: int): (p: real)
    requires total >= 1
    requires 0 <= current <= total
    ensures 0.0 <= p <= 100.0
    ensures p == 100.0 <==> current == total
    ensures p == 0.0 <==> current == 0
  {
    var q := current as real / total as real;
    assert q * total as real == current as real;
    q * 100.0
  }

  /** `update(value)`: the new bar and the percentage printed, if any. */
  function Update(bar: ProgressBar, value: int): (r: (ProgressBar, Option<real>))
    requires bar.total >= 1
    requires 0 <= value <= bar.total
    ensures r.0.total == bar.total && r.0.current == value
    ensures r.1.Some? <==> value % ProgressInterval == 0 || value == bar.total
    ensures r.1.Some? ==> 0.0 <= r.1.value <= 100.0 && (r.1.value == 100.0 <==> value == bar.total)
  {
    var next := bar.(current := value);
    if ShouldReport(value, bar.total) then (next, Some(Percentage(value, bar.total)))
    else (next, None)
  }
}
