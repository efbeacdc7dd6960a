/** The allocation loop of `createCommits`: walk the sampled dates, draw a number
    of commits for each date, and issue units until the total is reached or the
    dates run out.

    The tracking counter (the integer in the tracking file) is explicit state.
    A real unit bumps the counter and records a commit; a dry-run unit does
    neither. Both advance `commitCount` and update the progress report. */
module Driver {
  import opened Basics
  import opened Draws
  import opened Clock
  import opened Progress

  /** One commit: its date, time of day, and the number in its message
      "Update contribution <number>". */
  datatype CommitUnit = CommitUnit(date: int, time: TimeOfDay, number: nat)

  /** The loop's state: commits made so far, the tracking counter, the commits
      issued to version control, and the counts at which progress was printed. */
  datatype RunState = RunState(commitCount: nat, counter: int, units: seq<CommitUnit>, reports: seq<nat>)

  /** The validated parameters the loop reads. */
  datatype Plan = Plan(minPerDay: int, maxPerDay: int, total: int, dryRun: bool)

  function Start(counter: int): RunState {
    RunState(0, counter, [], [])
  }

  /** The body of the inner loop: one commit unit on `date`. Unit number n uses
      the time draws `timeRand(3n)`, `timeRand(3n + 1)`, `timeRand(3n + 2)`.
      The reporter's `update` decides whether a progress line is printed; the run
      records the count of each printed line. */
  function Step(st: RunState, date: int, plan: Plan, timeRand: Stream): (r: RunState)
    requires ValidStream(timeRand)
    requires st.commitCount < plan.total
    ensures r.commitCount == st.commitCount + 1
    // `updateFileContent`: a real unit reads the counter and writes it back one higher
    ensures r.counter == st.counter + (if plan.dryRun then 0 else 1)
    ensures plan.dryRun ==> r.units == st.units
    ensures !plan.dryRun ==> |r.units| == |st.units| + 1 && r.units[..|st.units|] == st.units
    ensures !plan.dryRun ==> var u := r.units[|st.units|];
              u.date == date && u.number == st.commitCount + 1 && ValidTime(u.time)
  {
    var n := st.commitCount;
    var st1 :=
      if plan.dryRun then st
      else
        var time := RandomTime(timeRand(3 * n), timeRand(3 * n + 1), timeRand(3 * n + 2));
        st.(counter := st.counter + 1, units := st.units + [CommitUnit(date, time, n + 1)]);
    var printed := Update(ProgressBar(plan.total, n), n + 1).1;
    st1.(commitCount := n + 1,
         reports := if printed.Some? then st.reports + [n + 1] else st.reports)
  }

  /** The inner loop `for (i = 0; i < commitsToday && commitCount < total; i++)`, from `i` on. */
  function IssueUnits(date: int, commitsToday: int, i: int, st: RunState, plan: Plan, timeRand: Stream): (r: RunState)
    requires ValidStream(timeRand)
    ensures st.commitCount <= r.commitCount
    ensures st.commitCount <= plan.total ==> r.commitCount <= plan.total
    decreases commitsToday - i
  {
    if i < commitsToday && st.commitCount < plan.total then
      IssueUnits(date, commitsToday, i + 1, Step(st, date, plan, timeRand), plan, timeRand)
    else st
  }

  /** The outer loop over the dates from index `k` on. Date k draws its count from `dayRand(k)`;
      the loop breaks as soon as the total has been reached. */
  function RunDays(dates: seq<int>, k: nat, st: RunState, plan: Plan, dayRand: Stream, timeRand: Stream): (r: RunState)
    requires k <= |dates|
    requires plan.minPerDay <= plan.maxPerDay
    requires ValidStream(dayRand) && ValidStream(timeRand)
    ensures st.commitCount <= r.commitCount
    ensures st.commitCount <= plan.total ==> r.commitCount <= plan.total
    decreases |dates| - k
  {
    if k == |dates| || st.commitCount >= plan.total then st
    else
      var commitsToday := DrawCount(dayRand(k), plan.minPerDay, plan.maxPerDay);
      RunDays(dates, k + 1, IssueUnits(dates[k], commitsToday, 0, st, plan, timeRand), plan, dayRand, timeRand)
  }

  /** The whole loop, starting from no commits and the counter read from the tracking file. */
  function Run(dates: seq<int>, counter: int, plan: Plan, dayRand: Stream, timeRand: Stream): (r: RunState)
    requires plan.minPerDay <= plan.maxPerDay
    requires ValidStream(dayRand) && ValidStream(timeRand)
    ensures r.commitCount <= Max0(plan.total)
  {
    RunDays(dates, 0, Start(counter), plan, dayRand, timeRand)
  }

  /** The number of units dates k .. n-1 would issue with no total: the sum of their
      drawn counts, a negative count issuing nothing. */
  function IssuedFrom(dayRand: Stream, plan: Plan, k: nat, n: nat): (s: nat)
    requires plan.minPerDay <= plan.maxPerDay
    requires ValidStream(dayRand)
    decreases n - k
  {
    if k >= n then 0
    else Max0(DrawCount(dayRand(k), plan.minPerDay, plan.maxPerDay)) + IssuedFrom(dayRand, plan, k + 1, n)
  }

  // ---------------------------------------------------------------------------
  // How many units are issued

  /** One date issues `min(commitsToday, total - commitCount)` units (none for a negative count). */
  lemma {:induction false} IssueUnitsCount(date: int, commitsToday: int, i: int, st: RunState, plan: Plan, timeRand: Stream)
    requires ValidStream(timeRand)
    requires st.commitCount <= plan.total
    ensures IssueUnits(date, commitsToday, i, st, plan, timeRand).commitCount
            == st.commitCount + Min(Max0(commitsToday - i), plan.total - st.commitCount)
    decreases commitsToday - i
  {
    if i < commitsToday && st.commitCount < plan.total {
      IssueUnitsCount(date, commitsToday, i + 1, Step(st, date, plan, timeRand), plan, timeRand);
    }
  }

  /** The loop ends with `min(total, sum of the drawn counts)` commits: it stops at the
      total, or issues everything drawn once the dates run out. */
  lemma {:induction false} RunDaysCount(dates: seq<int>, k: nat, st: RunState, plan: Plan, dayRand: Stream, timeRand: Stream)
    requires k <= |dates|
    requires plan.minPerDay <= plan.maxPerDay
    requires ValidStream(dayRand) && ValidStream(timeRand)
    requires st.commitCount <= plan.total
    ensures RunDays(dates, k, st, plan, dayRand, timeRand).commitCount
            == Min(plan.total, st.commitCount + IssuedFrom(dayRand, plan, k, |dates|))
    decreases |dates| - k
  {
    if k == |dates| || st.commitCount >= plan.total {
    } else {
      var commitsToday := DrawCount(dayRand(k), plan.minPerDay, plan.maxPerDay);
      var st1 := IssueUnits(dates[k], commitsToday, 0, st, plan, timeRand);
      IssueUnitsCount(dates[k], commitsToday, 0, st, plan, timeRand);
      RunDaysCount(dates, k + 1, st1, plan, dayRand, timeRand);
    }
  }

  lemma RunCount(dates: seq<int>, counter: int, plan: Plan, dayRand: Stream, timeRand: Stream)
    requires plan.minPerDay <= plan.maxPerDay
    requires ValidStream(dayRand) && ValidStream(timeRand)
    requires plan.total >= 0
    ensures Run(dates, counter, plan, dayRand, timeRand).commitCount
            == Min(plan.total, IssuedFrom(dayRand, plan, 0, |dates|))
  {
    RunDaysCount(dates, 0, Start(counter), plan, dayRand, timeRand);
  }

  /** Each date contributes at most `maxPerDay` to the sum. */
  lemma {:induction false} IssuedFromBound(dayRand: Stream, plan: Plan, k: nat, n: nat)
    requires plan.minPerDay <= plan.maxPerDay
    requires ValidStream(dayRand)
    requires k <= n
    ensures Max0(plan.minPerDay) * (n - k) <= IssuedFrom(dayRand, plan, k, n) <= Max0(plan.maxPerDay) * (n - k)
    decreases n - k
  {
    if k < n {
      IssuedFromBound(dayRand, plan, k + 1, n);
      var c := DrawCount(dayRand(k), plan.minPerDay, plan.maxPerDay);
      assert Max0(plan.minPerDay) <= Max0(c) <= Max0(plan.maxPerDay);
      assert Max0(plan.maxPerDay) * (n - k) == Max0(plan.maxPerDay) + Max0(plan.maxPerDay) * (n - (k + 1));
      assert Max0(plan.minPerDay) * (n - k) == Max0(plan.minPerDay) + Max0(plan.minPerDay) * (n - (k + 1));
    }
  }

  /** With few dates the run falls short: it never issues more than `maxPerDay` per date,
      and with enough dates it always issues at least `minPerDay` per date up to the total. */
  lemma RunCountBounds(dates: seq<int>, counter: int, plan: Plan, dayRand: Stream, timeRand: Stream)
    requires plan.minPerDay <= plan.maxPerDay
    requires ValidStream(dayRand) && ValidStream(timeRand)
    requires plan.total >= 0
    ensures var n := Run(dates, counter, plan, dayRand, timeRand).commitCount;
      Min(plan.total, |dates| * Max0(plan.minPerDay)) <= n <= Min(plan.total, |dates| * Max0(plan.maxPerDay))
  {
    var n := Run(dates, counter, plan, dayRand, timeRand).commitCount;
    var issued := IssuedFrom(dayRand, plan, 0, |dates|);
    RunCount(dates, counter, plan, dayRand, timeRand);
    IssuedFromBound(dayRand, plan, 0, |dates|);
    assert n == Min(plan.total, issued);
    assert Max0(plan.minPerDay) * |dates| <= issued <= Max0(plan.maxPerDay) * |dates|;
  }

  // ---------------------------------------------------------------------------
  // Side effects: counter, commits and progress reports

  /** The units issued after position `base`: numbered consecutively from `base + 1`,
      with valid times of day and dates drawn from `dates`. */
  ghost predicate UnitsFrom(units: seq<CommitUnit>, base: nat, dates: seq<int>) {
    forall j :: 0 <= j < |units| ==>
      units[j].number == base + j + 1 && ValidTime(units[j].time) && units[j].date in dates
  }

  /** The reports issued after commit `lo`, up to commit `hi`: exactly the counts in (lo, hi]
      that are a multiple of the interval or equal to the total, in increasing order. */
  ghost predicate ReportsBetween(reports: seq<nat>, lo: nat, hi: nat, total: int) {
    && (forall c :: c in reports <==> lo < c <= hi && ShouldReport(c, total))
    && (forall i, j :: 0 <= i < j < |reports| ==> reports[i] < reports[j])
  }

  /** What a run did on top of state `st`, ending in `r`. */
  ghost predicate Effects(st: RunState, r: RunState, plan: Plan, dates: seq<int>) {
    && st.commitCount <= r.commitCount
    // the counter rises by one per real unit and is untouched in a dry run
    && r.counter == st.counter + (if plan.dryRun then 0 else r.commitCount - st.commitCount)
    // one commit per real unit, appended after the earlier ones, none in a dry run
    && |r.units| == |st.units| + (if plan.dryRun then 0 else r.commitCount - st.commitCount)
    && r.units[..|st.units|] == st.units
    && (!plan.dryRun ==> UnitsFrom(r.units[|st.units|..], st.commitCount, dates))
    // a progress line for each multiple of the interval and for the total
    && |st.reports| <= |r.reports|
    && r.reports[..|st.reports|] == st.reports
    && ReportsBetween(r.reports[|st.reports|..], st.commitCount, r.commitCount, plan.total)
  }

  lemma EffectsTrans(s1: RunState, s2: RunState, s3: RunState, plan: Plan, dates: seq<int>)
    requires Effects(s1, s2, plan, dates)
    requires Effects(s2, s3, plan, dates)
    ensures Effects(s1, s3, plan, dates)
  {
    assert s3.units[..|s1.units|] == s2.units[..|s1.units|];
    if !plan.dryRun {
      var u := s3.units[|s1.units|..];
      var d := |s2.units| - |s1.units|;
      assert u == s2.units[|s1.units|..] + s3.units[|s2.units|..];
      forall j | 0 <= j < |u|
        ensures u[j].number == s1.commitCount + j + 1 && ValidTime(u[j].time) && u[j].date in dates
      {
        if j < d {
          assert u[j] == s2.units[|s1.units|..][j];
        } else {
          assert u[j] == s3.units[|s2.units|..][j - d];
        }
      }
    }
    assert s3.reports[..|s1.reports|] == s2.reports[..|s1.reports|];
    var rs := s3.reports[|s1.reports|..];
    var a := s2.reports[|s1.reports|..];
    var b := s3.reports[|s2.reports|..];
    assert rs == a + b;
    forall i, j | 0 <= i < j < |rs|
      ensures rs[i] < rs[j]
    {
      if j < |a| {
        assert rs[i] == a[i] && rs[j] == a[j];
      } else if i >= |a| {
        assert rs[i] == b[i - |a|] && rs[j] == b[j - |a|];
      } else {
        assert rs[i] == a[i] && rs[j] == b[j - |a|];
        assert a[i] in a && b[j - |a|] in b;
      }
    }
  }

  lemma StepEffects(st: RunState, date: int, plan: Plan, timeRand: Stream, dates: seq<int>)
    requires ValidStream(timeRand)
    requires st.commitCount < plan.total
    requires date in dates
    ensures Effects(st, Step(st, date, plan, timeRand), plan, dates)
  {
  }

  lemma {:induction false} IssueUnitsEffects(date: int, commitsToday: int, i: int, st: RunState, plan: Plan, timeRand: Stream, dates: seq<int>)
    requires ValidStream(timeRand)
    requires date in dates
    ensures Effects(st, IssueUnits(date, commitsToday, i, st, plan, timeRand), plan, dates)
    decreases commitsToday - i
  {
    if i < commitsToday && st.commitCount < plan.total {
      var st1 := Step(st, date, plan, timeRand);
      StepEffects(st, date, plan, timeRand, dates);
      IssueUnitsEffects(date, commitsToday, i + 1, st1, plan, timeRand, dates);
      EffectsTrans(st, st1, IssueUnits(date, commitsToday, i + 1, st1, plan, timeRand), plan, dates);
    } else {
      assert st.units[..|st.units|] == st.units;
      assert st.reports[..|st.reports|] == st.reports;
    }
  }

  lemma {:induction false} RunDaysEffects(dates: seq<int>, k: nat, st: RunState, plan: Plan, dayRand: Stream, timeRand: Stream)
    requires k <= |dates|
    requires plan.minPerDay <= plan.maxPerDay
    requires ValidStream(dayRand) && ValidStream(timeRand)
    ensures Effects(st, RunDays(dates, k, st, plan, dayRand, timeRand), plan, dates)
    decreases |dates| - k
  {
    if k == |dates| || st.commitCount >= plan.total {
      assert st.units[..|st.units|] == st.units;
      assert st.reports[..|st.reports|] == st.reports;
    } else {
      var commitsToday := DrawCount(dayRand(k), plan.minPerDay, plan.maxPerDay);
      var st1 := IssueUnits(dates[k], commitsToday, 0, st, plan, timeRand);
      IssueUnitsEffects(dates[k], commitsToday, 0, st, plan, timeRand, dates);
      RunDaysEffects(dates, k + 1, st1, plan, dayRand, timeRand);
      EffectsTrans(st, st1, RunDays(dates, k + 1, st1, plan, dayRand, timeRand), plan, dates);
    }
  }

  /** A whole run: the counter ends `commitCount` above where it started (unchanged in a
      dry run), the real commits are numbered 1 .. commitCount and fall on the dates of
      the reference allocation, and progress is printed at every multiple of the interval
      and at the total. */
  lemma RunEffects(dates: seq<int>, counter: int, plan: Plan, dayRand: Stream, timeRand: Stream)
    requires plan.minPerDay <= plan.maxPerDay
    requires ValidStream(dayRand) && ValidStream(timeRand)
    ensures var r := Run(dates, counter, plan, dayRand, timeRand);
      && r.counter == counter + (if plan.dryRun then 0 else r.commitCount)
      && (plan.dryRun ==> r.units == [])
      && (!plan.dryRun ==> |r.units| == r.commitCount && UnitsFrom(r.units, 0, dates))
      // each date receives its own drawn count, in order, until the total is reached
      && (!plan.dryRun ==> DatesOf(r.units) == Allocation(dates, 0, 0, plan, dayRand))
      && ReportsBetween(r.reports, 0, r.commitCount, plan.total)
  {
    var r := Run(dates, counter, plan, dayRand, timeRand);
    RunDaysEffects(dates, 0, Start(counter), plan, dayRand, timeRand);
    if !plan.dryRun {
      RunDaysDates(dates, 0, Start(counter), plan, dayRand, timeRand);
    }
    assert r.units[|Start(counter).units|..] == r.units;
    assert r.reports[|Start(counter).reports|..] == r.reports;
  }

  // ---------------------------------------------------------------------------
  // Which date each commit lands on

  /** The dates of a sequence of commits, in order. */
  function DatesOf(units: seq<CommitUnit>): (ds: seq<int>)
    ensures |ds| == |units|
    ensures forall j :: 0 <= j < |units| ==> ds[j] == units[j].date
  {
    seq(|units|, j requires 0 <= j < |units| => units[j].date)
  }

  /** `n` copies of the date `x`. */
  function Copies(x: int, n: nat): (s: seq<int>)
    ensures |s| == n
  {
    seq(n, _ => x)
  }

  /** The reference allocation, one entry per commit: with `count` commits already made,
      date k receives its drawn count (nothing for a negative one), cut off at the total,
      and the later dates share the rest. */
  function Allocation(dates: seq<int>, k: nat, count: int, plan: Plan, dayRand: Stream): seq<int>
    requires k <= |dates|
    requires plan.minPerDay <= plan.maxPerDay
    requires ValidStream(dayRand)
    decreases |dates| - k
  {
    if k == |dates| || count >= plan.total then []
    else
      var n := Min(Max0(DrawCount(dayRand(k), plan.minPerDay, plan.maxPerDay)), plan.total - count);
      Copies(dates[k], n) + Allocation(dates, k + 1, count + n, plan, dayRand)
  }

  lemma {:induction false} CopiesCount(x: int, n: nat, y: int)
    ensures multiset(Copies(x, n))[y] == if x == y then n else 0
  {
    if n > 0 {
      CopiesCount(x, n - 1, y);
      assert Copies(x, n) == Copies(x, n - 1) + [x];
    }
  }

  /** The commits added after `a` up to `c` are those added up to `b` followed by the rest. */
  lemma DatesOfSplit(a: seq<CommitUnit>, b: seq<CommitUnit>, c: seq<CommitUnit>, head: seq<int>, tail: seq<int>)
    requires |a| <= |b| <= |c|
    requires c[..|b|] == b
    requires DatesOf(b[|a|..]) == head
    requires DatesOf(c[|b|..]) == tail
    ensures DatesOf(c[|a|..]) == head + tail
  {
    assert c[|a|..] == b[|a|..] + c[|b|..];
  }

  /** A real run puts all of one date's commits on that date:
      `min(commitsToday, total - commitCount)` of them. */
  lemma IssueUnitsDates(date: int, commitsToday: int, st: RunState, plan: Plan, timeRand: Stream)
    requires ValidStream(timeRand)
    requires !plan.dryRun
    requires st.commitCount <= plan.total
    ensures var r := IssueUnits(date, commitsToday, 0, st, plan, timeRand);
      var n := Min(Max0(commitsToday), plan.total - st.commitCount);
      && r.commitCount == st.commitCount + n
      && |st.units| <= |r.units|
      && DatesOf(r.units[|st.units|..]) == Copies(date, n)
  {
    var r := IssueUnits(date, commitsToday, 0, st, plan, timeRand);
    IssueUnitsEffects(date, commitsToday, 0, st, plan, timeRand, [date]);
    IssueUnitsCount(date, commitsToday, 0, st, plan, timeRand);
    var added := r.units[|st.units|..];
    forall j | 0 <= j < |added|
      ensures added[j].date == date
    {
      assert added[j].date in [date];
    }
  }

  /** The loop only appends commits. */
  lemma RunDaysExtends(dates: seq<int>, k: nat, st: RunState, plan: Plan, dayRand: Stream, timeRand: Stream)
    requires k <= |dates|
    requires plan.minPerDay <= plan.maxPerDay
    requires ValidStream(dayRand) && ValidStream(timeRand)
    ensures var r := RunDays(dates, k, st, plan, dayRand, timeRand);
      |st.units| <= |r.units| && r.units[..|st.units|] == st.units
  {
    RunDaysEffects(dates, k, st, plan, dayRand, timeRand);
  }

  /** A real run's commits from date k on land exactly on the reference allocation's dates. */
  lemma {:induction false} RunDaysDates(dates: seq<int>, k: nat, st: RunState, plan: Plan, dayRand: Stream, timeRand: Stream)
    requires k <= |dates|
    requires plan.minPerDay <= plan.maxPerDay
    requires ValidStream(dayRand) && ValidStream(timeRand)
    requires !plan.dryRun
    ensures var r := RunDays(dates, k, st, plan, dayRand, timeRand);
      && |st.units| <= |r.units|
      && DatesOf(r.units[|st.units|..]) == Allocation(dates, k, st.commitCount, plan, dayRand)
    decreases |dates| - k
  {
    if k == |dates| || st.commitCount >= plan.total {
      assert st.units[|st.units|..] == [];
    } else {
      var commitsToday := DrawCount(dayRand(k), plan.minPerDay, plan.maxPerDay);
      var n := AllocationUnfold(dates, k, st.commitCount, plan, dayRand);
      var st1 := IssueUnits(dates[k], commitsToday, 0, st, plan, timeRand);
      var r := RunDays(dates, k + 1, st1, plan, dayRand, timeRand);
      assert RunDays(dates, k, st, plan, dayRand, timeRand) == r;
      IssueUnitsDates(dates[k], commitsToday, st, plan, timeRand);
      RunDaysDates(dates, k + 1, st1, plan, dayRand, timeRand);
      RunDaysExtends(dates, k + 1, st1, plan, dayRand, timeRand);
      DatesOfSplit(st.units, st1.units, r.units, Copies(dates[k], n),
                   Allocation(dates, k + 1, st1.commitCount, plan, dayRand));
    }
  }

  lemma CountAppend(a: seq<int>, b: seq<int>, x: int)
    ensures multiset(a + b)[x] == multiset(a)[x] + multiset(b)[x]
  {
  }

  /** Unfolding the reference allocation once: date k receives `n` commits, at most
      `maxPerDay`, and the later dates share the rest. */
  lemma AllocationUnfold(dates: seq<int>, k: nat, count: int, plan: Plan, dayRand: Stream) returns (n: nat)
    requires k < |dates|
    requires count < plan.total
    requires plan.minPerDay <= plan.maxPerDay
    requires ValidStream(dayRand)
    ensures n == Min(Max0(DrawCount(dayRand(k), plan.minPerDay, plan.maxPerDay)), plan.total - count)
    ensures n <= Max0(plan.maxPerDay)
    ensures Allocation(dates, k, count, plan, dayRand)
            == Copies(dates[k], n) + Allocation(dates, k + 1, count + n, plan, dayRand)
  {
    n := Min(Max0(DrawCount(dayRand(k), plan.minPerDay, plan.maxPerDay)), plan.total - count);
  }

  /** One date more: `n <= m` copies of date `d` in front of an allocation that gives `x`
      at most `m` commits when `x` is among the later dates and none otherwise. */
  lemma PerDateStep(d: int, later: seq<int>, n: nat, m: nat, rest: seq<int>, x: int)
    requires d !in later
    requires n <= m
    requires multiset(rest)[x] <= (if x in later then m else 0)
    ensures multiset(Copies(d, n) + rest)[x] <= (if x in [d] + later then m else 0)
  {
    CopiesCount(d, n, x);
    CountAppend(Copies(d, n), rest, x);
  }

  /** With distinct dates, the reference allocation gives a day at most `maxPerDay`
      commits if it is among the dates from k on, and none otherwise. */
  lemma {:induction false} AllocationPerDate(dates: seq<int>, k: nat, count: int, plan: Plan, dayRand: Stream, x: int)
    requires k <= |dates|
    requires plan.minPerDay <= plan.maxPerDay
    requires ValidStream(dayRand)
    requires Distinct(dates)
    ensures multiset(Allocation(dates, k, count, plan, dayRand))[x]
            <= if x in dates[k..] then Max0(plan.maxPerDay) else 0
    decreases |dates| - k
  {
    if k == |dates| || count >= plan.total {
      assert Allocation(dates, k, count, plan, dayRand) == [];
    } else {
      var n := AllocationUnfold(dates, k, count, plan, dayRand);
      AllocationPerDate(dates, k + 1, count + n, plan, dayRand, x);
      assert dates[k..] == [dates[k]] + dates[k + 1..];
      assert dates[k] !in dates[k + 1..];
      PerDateStep(dates[k], dates[k + 1..], n, Max0(plan.maxPerDay),
                  Allocation(dates, k + 1, count + n, plan, dayRand), x);
    }
  }

  /** With distinct dates, as the sampler returns them, no day receives more than
      `maxCommitsPerDay` commits. */
  lemma RunPerDayBound(dates: seq<int>, counter: int, plan: Plan, dayRand: Stream, timeRand: Stream)
    requires plan.minPerDay <= plan.maxPerDay
    requires ValidStream(dayRand) && ValidStream(timeRand)
    requires !plan.dryRun
    requires Distinct(dates)
    ensures forall x :: multiset(DatesOf(Run(dates, counter, plan, dayRand, timeRand).units))[x]
                        <= Max0(plan.maxPerDay)
  {
    var r := Run(dates, counter, plan, dayRand, timeRand);
    RunDaysDates(dates, 0, Start(counter), plan, dayRand, timeRand);
    assert r.units[|Start(counter).units|..] == r.units;
    assert dates[0..] == dates;
    forall x
      ensures multiset(DatesOf(r.units))[x] <= Max0(plan.maxPerDay)
    {
      AllocationPerDate(dates, 0, 0, plan, dayRand, x);
    }
  }

  /** A dry run makes the same number of commits and prints the same progress lines as a
      real run with the same draws. */
  lemma {:induction false} DryRunAgrees(dates: seq<int>, k: nat, st1: RunState, st2: RunState, plan: Plan,
                                        dayRand: Stream, timeRand: Stream)
    requires k <= |dates|
    requires plan.minPerDay <= plan.maxPerDay
    requires ValidStream(dayRand) && ValidStream(timeRand)
    requires st1.commitCount == st2.commitCount && st1.reports == st2.reports
    ensures var r1 := RunDays(dates, k, st1, plan.(dryRun := true), dayRand, timeRand);
            var r2 := RunDays(dates, k, st2, plan.(dryRun := false), dayRand, timeRand);
            r1.commitCount == r2.commitCount && r1.reports == r2.reports
    decreases |dates| - k
  {
    if k == |dates| || st1.commitCount >= plan.total {
    } else {
      var commitsToday := DrawCount(dayRand(k), plan.minPerDay, plan.maxPerDay);
      var a := IssueUnits(dates[k], commitsToday, 0, st1, plan.(dryRun := true), timeRand);
      var b := IssueUnits(dates[k], commitsToday, 0, st2, plan.(dryRun := false), timeRand);
      IssueUnitsAgree(dates[k], commitsToday, 0, st1, st2, plan, timeRand);
      DryRunAgrees(dates, k + 1, a, b, plan, dayRand, timeRand);
    }
  }

  lemma {:induction false} IssueUnitsAgree(date: int, commitsToday: int, i: int, st1: RunState, st2: RunState, plan: Plan, timeRand: Stream)
    requires ValidStream(timeRand)
    requires st1.commitCount == st2.commitCount && st1.reports == st2.reports
    ensures var r1 := IssueUnits(date, commitsToday, i, st1, plan.(dryRun := true), timeRand);
            var r2 := IssueUnits(date, commitsToday, i, st2, plan.(dryRun := false), timeRand);
            r1.commitCount == r2.commitCount && r1.reports == r2.reports
    decreases commitsToday - i
  {
    if i < commitsToday && st1.commitCount < plan.total {
      IssueUnitsAgree(date, commitsToday, i + 1, Step(st1, date, plan.(dryRun := true), timeRand),
                      Step(st2, date, plan.(dryRun := false), timeRand), plan, timeRand);
    }
  }
}
