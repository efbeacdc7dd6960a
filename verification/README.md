# GitHub activity generator — verified model of its core

The generator makes backdated git commits across a date range to simulate
contribution activity. This project models its three pieces of logic, all in
`index.js`:

- **Configuration validation** (`validateConfig`). A configuration has a start
  and end date, a minimum and maximum number of commits per day, and a total.
  The checks run in a fixed order and the first failing one is reported.
- **Date sampling** (`getRandomDates`). It lists every day of the range in
  order, shuffles the days with Fisher–Yates (Knuth, *The Art of Computer
  Programming*, Vol. 2, Algorithm 3.4.2P), and keeps the first N.
- **The allocation loop** (`createCommits`). For each sampled date it draws a
  count in [min, max] and issues that many commit units, stopping at the total.
  A real unit bumps the tracking counter and records one commit with a random
  time of day. In a dry run, units still count and drive the progress reporter,
  but they have no side effects.

Modules:

| module | file | content |
|---|---|---|
| `Basics` | basics.dfy | `Option`, `Result`, `Min`, `Max0`, `Distinct` |
| `Constants` | constants.dfy | the values of constants.js |
| `Draws` | draws.dfy | random source, `Math.floor(Math.random() * n)` |
| `Validation` | validation.dfy | configuration records, `validateConfig` |
| `Sampler` | sampler.dfy | day enumeration, Fisher–Yates, `getRandomDates` |
| `Clock` | clock.dfy | `getRandomTime`, commit timestamp |
| `Progress` | progress.dfy | `ProgressBar.update` |
| `Driver` | driver.dfy | the allocation loop and its counter |
| `Generator` | generator.dfy | `createCommits` end to end |

Modelling choices:

- **Dates.** A date field holds one of three things:
  - a parsed date, which is an integer day ordinal;
  - the empty string, which is falsy and does not parse;
  - other text that does not parse.

  Validation rejects both unparsable forms. `getRandomDates` throws on the
  empty string and returns no days for other unparsable text. `today` is the ordinal of the
  current day. The program parses `YYYY-MM-DD` as local midnight and compares
  it with the current instant, so a date is "after now" exactly when its
  ordinal is greater than `today`.
- **Randomness.** `Math.random()` is a caller-supplied stream `nat -> real`
  whose every value lies in [0, 1). `Draws.Scaled` is
  `Math.floor(r * n)`; it is proved to lie in [0, n), and every value in
  [0, n) is reached by some draw.
- **One stream per purpose.** The shuffle, the per-date counts and the times
  of day each read their own stream:
  - the k-th swap reads `shuffleRand(k)`;
  - the k-th date reads `dayRand(k)`;
  - commit number n+1 reads `timeRand(3n)`, `timeRand(3n+1)` and `timeRand(3n+2)`.
- **Tracking file.** It is `Option<int>`: `None` when absent, otherwise the
  integer it holds.
- **Errors.** Each `throw` is a `Failure` value of a `Result`.
- **Progress.** The run keeps no bar object: the bar's current value is always
  the commit count. Each unit calls `Progress.Update`, and the run records the
  count of every line it prints. The percentage on that line is
  `Progress.Percentage` of the count, whose bounds are stated there.

Two behaviours of the code that a reader might not expect; the model keeps both:

- `initializeFile` runs before the dry-run flag is consulted. A dry run
  therefore creates the tracking file, holding 0, when it is absent.
  So a dry run is not entirely free of persistent effects.
  `Generator.CreateCommits` states this. A dry run never changes the counter.
- The validator does not reject a negative `minCommitsPerDay`. A date that
  draws a negative count issues no commit. `Driver.IssuedFrom` counts such a
  date as 0.

## Model

| member | source | states |
|---|---|---|
| Validation.FirstMissingFrom | index.js:24-28 | the required-fields loop finds nothing exactly when every field from position i on is present; otherwise it finds a missing field that every earlier field precedes, i.e. the first missing one in checking order |
| Validation.Validate | index.js:14-74 | a missing field is reported before any other rule (the first missing one); an unparsable date comes next; validation succeeds exactly when the order-free rules hold (start ≤ end, end not after today unless future dates are allowed, min ≤ max, total ≥ 1) and returns the fields unchanged; the future-dates warning is shown exactly for dates after today and never turns into an error |
| Validation.ErrorPriority | index.js:39-63 | for a complete configuration, each error is reported exactly when its rule fails and every earlier rule holds: end-before-start, then start in the future, then end in the future (the last two only when future dates are disallowed), then min > max, then total < 1 |
| Validation.ValidatedIsSound | index.js:39-63 | an accepted configuration has start ≤ end, min ≤ max and total ≥ 1, and with future dates disallowed its end is not after today |
| Validation.VerdictIndependentOfToday | index.js:43-73 | with future dates allowed, the current day affects only the warning, never whether validation fails or which error it reports |
| Validation.AllowingFutureIsWeaker | index.js:43-55 | a configuration accepted with future dates disallowed is also accepted with them allowed, with the same fields |
| Validation.TestPresetValidates | config.js:13-19 | the default "test" preset (today−7 through today, eight days; 1–3 commits a day, 10 in all) passes validation on any day, with no warning |
| Draws.Scaled | index.js:98 | `floor(r * n)` for a draw r in [0,1) and n ≥ 1 lies in [0, n) |
| Draws.ScaledOnto | index.js:98 | every index in [0, n) is produced by some draw in [0,1), so results proved for all draws cover every choice the program can make |
| Draws.DrawCount | index.js:206-212 | the per-date count `floor(r * (max − min + 1)) + min` lies in [min, max] |
| Sampler.EnumerateDays | index.js:89-94 | the enumeration loop yields exactly the days of [start, end]: strictly ascending, each once, `end − start + 1` of them (none when end < start) |
| Sampler.Shuffle | index.js:96-100 | for any draws in [0,1), the Fisher–Yates loop returns a permutation of its input: same length, same multiset |
| Sampler.PermutationKeepsDistinct | index.js:96-102 | a permutation of a duplicate-free sequence is duplicate-free |
| Sampler.GetRandomDates | index.js:79-103 | fails exactly when a date is falsy (missing or the empty string) or the count is negative; a non-empty date that does not parse yields no days; otherwise it returns `min(N, days in range)` distinct days, all in [start, end], forming a sub-multiset of the range, and every day of the range when N ≥ the number of days |
| Clock.RandomTime | index.js:105-111 | a random time of day has hour in [0,24), minute in [0,60) and second in [0,60) |
| Clock.Instant | index.js:223 | a commit's timestamp (date at the drawn time) lies within its date |
| Clock.InstantRoundTrip | index.js:223 | the date and time of day are recovered from a commit's timestamp |
| Progress.Percentage | index.js:152 | the computed percentage (before `toFixed`) lies in [0, 100], is 100 exactly at the total and 0 exactly at zero commits |
| Progress.Update | index.js:146-159 | `update(value)` stores value as current, prints exactly when value is a multiple of the interval or equals the total, and the computed percentage of a printed line (before `toFixed`) lies in [0, 100] and is 100 only at the total |
| Driver.IssueUnits | index.js:214-233 | the inner loop never lowers the commit count and never takes it past the total |
| Driver.RunDays | index.js:203-234 | the outer loop never lowers the commit count and never takes it past the total |
| Driver.Run | index.js:200-234 | the whole loop ends with at most `totalCommits` commits |
| Driver.IssueUnitsCount | index.js:214-218 | one date issues exactly `min(commitsToday, total − commitCount)` units, and none for a negative count |
| Driver.RunDaysCount | index.js:203-218 | the loop from date k ends with `min(total, count + the sum of the drawn counts of dates k..)`: it stops at the total or issues everything drawn once the dates run out |
| Driver.RunCount | index.js:200-234 | a run ends with `min(totalCommits, the sum of the drawn counts)` commits |
| Driver.IssuedFromBound | index.js:206-212 | the sum of the drawn counts over m dates lies between m·min and m·max (negative bounds counting as 0) |
| Driver.RunCountBounds | index.js:203-218 | a run issues at most `min(total, dates × max)` commits and at least `min(total, dates × min)`; with too few dates it falls short of the total without error |
| Driver.Step | index.js:219-232 | one unit below the total advances the commit count by one; a real unit raises the tracking counter by one (`updateFileContent`) and appends one commit on its date, numbered `commitCount + 1`, with a valid time of day; a dry-run unit leaves counter and commits unchanged |
| Driver.StepEffects | index.js:127-131 | a real unit raises the tracking counter by exactly one and appends one commit numbered `commitCount + 1`; a dry-run unit changes neither; both advance the count and print progress per the reporter rule |
| Driver.IssueUnitsEffects | index.js:214-233 | after one date, the counter has risen by the number of real units and the new commits are numbered consecutively on that date with valid times |
| Driver.RunDaysEffects | index.js:203-234 | the same holds for the rest of the loop from any date on; which date each commit lands on is stated by `Driver.RunDaysDates` |
| Driver.RunEffects | index.js:203-232 | after a run, the counter is `commitCount` above its start (unchanged in a dry run); the real commits are numbered 1..commitCount, with valid times, and their dates, in order, are the reference allocation: each sampled date in turn gets its own drawn count, cut off at the total; a dry run makes no commit; progress is printed at exactly the multiples of the interval up to the count and at the total, in increasing order |
| Driver.IssueUnitsDates | index.js:214-229 | every commit the inner loop makes for a date lands on that date, and there are `min(commitsToday, total − commitCount)` of them |
| Driver.RunDaysDates | index.js:203-229 | from date k on, the dates of the real commits are exactly the reference allocation: date k receives `min(its drawn count, what is left of the total)` commits, then date k+1, and so on, stopping at the total |
| Driver.AllocationPerDate | index.js:206-218 | with distinct dates, that allocation gives a day at most `maxCommitsPerDay` commits when it is among the dates still to come, and none otherwise |
| Driver.RunPerDayBound | index.js:203-229 | with distinct dates, as the sampler returns them, no day receives more than `maxCommitsPerDay` commits |
| Driver.IssueUnitsAgree | index.js:214-233 | on one date, a dry run and a real run from the same count make the same number of units and print the same progress lines |
| Driver.DryRunAgrees | index.js:219-232 | for the same draws, a dry run and a real run end with the same commit count and the same progress lines |
| Generator.Lookup | index.js:171-178 | selecting a config by name finds an own preset first; otherwise a member every object inherits (`toString`, `constructor`, `__proto__`, …) passes the check but has no configuration field, so validation stops at a missing `startDate`; only other names are unknown |
| Generator.InitializeFile | index.js:116-125 | an absent tracking file is created holding 0; an existing file keeps its value |
| Generator.CreateCommits | index.js:165-234 | an unknown config name, an inherited member name (reported as a missing `startDate`) or a failed validation aborts with the tracking file untouched; otherwise sampling cannot fail. A run then samples `min(total, days in range)` distinct dates in range, none after today. It makes `min(total, the sum of the drawn counts)` commits, never more than the total. It leaves the tracking file present and raised by the number of real commits; no day receives more than `maxCommitsPerDay` commits; a dry run makes no commit. The final state is exactly the allocation loop's (`Driver.Run`) over the sampled dates, so every fact of `Driver.RunEffects` holds of it |

## Left out

- Date handling in `moment` (parsing, formatting, time zones, daylight saving): dates are day ordinals and the current day is a parameter; a timestamp is seconds from day 0.
- `Math.random`: replaced by caller-supplied streams of reals in [0,1). Nothing probabilistic, such as uniformity of the shuffle, is claimed.
- The single interleaved random sequence: it is split into one stream per purpose. With the program's single random sequence, a dry run would draw different per-date counts from a real run, because it skips the time-of-day draws.
- File reads and writes, their failures, and `parseInt` of a tracking file whose content is not a number: the tracking file is an optional integer.
- `simple-git` `add` and `commit`, their asynchrony and failures: each commit is recorded as a `CommitUnit` (date, time of day, message number); the message text "Update contribution N" is kept only as N.
- Console output, `toFixed` formatting, `process.exit`, and command-line parsing with the default config name (index.js:236-254).
- The `year2023` preset of config.js: it is fixed calendar data; presets are a map given to `Generator.CreateCommits`.
- The unused `daysAvailable` variable (index.js:86).
- Fields that are present but hold `undefined`, `null`, a non-integer number or a string: numeric fields are integers, dates are a parsed day, the empty string or other unparsable text.
- Sampler.GetRandomDates: states that the result is a duplicate-free sub-multiset of the range of the right size. It does not state which arrangement a given sequence of draws produces.
- Generator.CreateCommits: does not repeat the per-commit facts (numbering, time of day, dates); it states that its final state is `Driver.Run`'s, of which `Driver.RunEffects` proves them.
